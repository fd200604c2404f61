/** What the streaming redactor guarantees, over every way of cutting a text into fragments. */
module RedactProofs {
  import opened Redact
  import opened Sequences

  // ---------- Secret-free text: nothing lost, bounded, every tag inside one piece ----------

  ghost predicate ThinkFree(s: string) {
    forall i: nat | i < |s| :: !StartsAt(s, i, "<think>") && !StartsAt(s, i, "</think>")
  }

  ghost predicate NoAngle(s: string) {
    '<' !in s
  }

  lemma {:induction false} NothingSubstituted(s: string, ns: seq<nat>, i: nat)
    requires i <= |s| == |ns| && forall k | 0 <= k < |s| :: ns[k] == 0
    ensures Substitute(s, ns, i) == s[i..]
    decreases |s| - i
  {
    if i < |s| { NothingSubstituted(s, ns, i + 1); }
  }

  /** `v` is spelt in `s` at `i`, in any case, whatever stands around it. */
  ghost predicate Spelt(a: Alphabet, v: string, s: string, i: nat) {
    i + |v| <= |s| && forall k | 0 <= k < |v| :: a.fold(s[i + k]) == a.fold(v[k])
  }

  /** No secret is spelt anywhere in `s`, as a word or inside one: a forced cut can make a word start. */
  ghost predicate SecretFree(g: Guard, s: string) {
    forall v, i: nat | v in g.values && v != "" && i <= |s| :: !Spelt(g.alphabet, v, s, i)
  }

  /** Text the filter has no reason to change. */
  ghost predicate Innocent(g: Guard, s: string) {
    SecretFree(g, s) && ThinkFree(s)
  }

  lemma NoSecretsAtAll(g: Guard, s: string)
    requires g.values == []
    ensures SecretFree(g, s)
  {
  }

  lemma SecretFreePart(g: Guard, s: string, i: nat, j: nat)
    requires SecretFree(g, s) && i <= j <= |s|
    ensures SecretFree(g, s[i..j])
  {
    forall v, k: nat | v in g.values && v != "" && k <= j - i ensures !Spelt(g.alphabet, v, s[i..j], k) {
      SpeltInPart(g.alphabet, v, s, i, j, k);
      assert !Spelt(g.alphabet, v, s, i + k);
    }
  }

  lemma SpeltInPart(a: Alphabet, v: string, s: string, i: nat, j: nat, k: nat)
    requires i <= j <= |s|
    ensures Spelt(a, v, s[i..j], k) ==> Spelt(a, v, s, i + k)
  {
    if Spelt(a, v, s[i..j], k) {
      forall x | 0 <= x < |v| ensures a.fold(s[i + k + x]) == a.fold(v[x]) {
        assert a.fold(s[i..j][k + x]) == a.fold(v[x]);
      }
    }
  }

  lemma NothingCleaned(g: Guard, s: string, closed: bool)
    requires SecretFree(g, WithoutThink(s, 0))
    ensures Clean(g, s, closed) == WithoutThink(s, 0)
  {
    var w := WithoutThink(s, 0);
    var ns := Matches(g, w, closed);
    forall i | 0 <= i < |w| ensures ns[i] == 0 { NoMatch(g, w, i, closed); }
    NothingSubstituted(w, ns, 0);
    assert w[0..] == w;
  }

  lemma NoMatch(g: Guard, s: string, i: nat, closed: bool)
    requires SecretFree(g, s) && i < |s|
    ensures FirstFit(g.alphabet, g.values, s, i, closed) == 0
  {
    forall v | v in g.values && v != "" ensures !Fits(g.alphabet, v, s, i, closed) {
      assert !Spelt(g.alphabet, v, s, i);
    }
  }

  lemma {:induction false} NothingStripped(s: string, i: nat)
    requires ThinkFree(s) && i <= |s|
    ensures WithoutThink(s, i) == s[i..]
    decreases |s| - i
  {
    if i < |s| { NothingStripped(s, i + 1); }
  }

  lemma ThinkFreePart(s: string, i: nat, j: nat)
    requires ThinkFree(s) && i <= j <= |s|
    ensures ThinkFree(s[i..j])
  {
    forall k: nat | k < j - i ensures !StartsAt(s[i..j], k, "<think>") && !StartsAt(s[i..j], k, "</think>") {
      StartsInPart(s, i, j, k, "<think>");
      StartsInPart(s, i, j, k, "</think>");
    }
  }

  lemma StartsInPart(s: string, i: nat, j: nat, k: nat, p: string)
    requires i <= j <= |s| && k <= j - i
    ensures StartsAt(s[i..j], k, p) ==> StartsAt(s, i + k, p)
  {
    if StartsAt(s[i..j], k, p) {
      forall x | 0 <= x < |p| ensures s[i + k + x] == p[x] {
        assert s[i..j][k + x] == p[x];
      }
    }
  }

  lemma AngleFreeIsThinkFree(s: string)
    requires NoAngle(s)
    ensures ThinkFree(s)
  {
    forall i: nat | i < |s| ensures !StartsAt(s, i, "<think>") && !StartsAt(s, i, "</think>") {
      FirstCharacter(s, i, "<think>");
      FirstCharacter(s, i, "</think>");
    }
  }

  lemma FirstCharacter(s: string, i: nat, p: string)
    requires p != []
    ensures StartsAt(s, i, p) ==> s[i] == p[0]
  {
    assert StartsAt(s, i, p) ==> s[i + 0] == p[0];
  }

  lemma InnocentPart(g: Guard, s: string, i: nat, j: nat)
    requires Innocent(g, s) && i <= j <= |s|
    ensures Innocent(g, s[i..j])
  {
    SecretFreePart(g, s, i, j);
    ThinkFreePart(s, i, j);
  }

  lemma CleanIsIdentity(g: Guard, s: string, closed: bool)
    requires Innocent(g, s)
    ensures Clean(g, s, closed) == s
  {
    NothingStripped(s, 0);
    assert s[0..] == s;
    NothingCleaned(g, s, closed);
  }

  /** The pieces and the buffer are the text fed, in order, after every `feed`. */
  lemma {:induction false} PiecesAreTheText(g: Guard, fragments: seq<string>)
    requires Innocent(g, Join(fragments))
    ensures Join(Run(g, fragments).pieces) + Run(g, fragments).held == Join(fragments)
  {
    if fragments != [] {
      var n := |fragments| - 1;
      var t0, before := Join(fragments[..n]), Run(g, fragments[..n]);
      InnocentPart(g, Join(fragments), 0, |t0|);
      assert Join(fragments)[0..|t0|] == t0;
      PiecesAreTheText(g, fragments[..n]);
      InnocentMiddle(g, Join(before.pieces), before.held, fragments[n]);
      CleanIsIdentity(g, before.held + fragments[n], false);
      PieceAdded(before, FeedStep(g, before.held, fragments[n]), fragments[n]);
    }
  }

  lemma PieceAdded(before: Progress, step: (string, string), t: string)
    requires step.0 + step.1 == before.held + t
    ensures Join(before.pieces + [step.0]) + step.1 == Join(before.pieces) + before.held + t
  {
    JoinOne(before.pieces, step.0);
    var sent := Join(before.pieces);
    assert sent + step.0 + step.1 == sent + (step.0 + step.1);
    assert sent + before.held + t == sent + (before.held + t);
  }

  lemma InnocentMiddle(g: Guard, sent: string, held: string, t: string)
    requires Innocent(g, sent + held + t)
    ensures Innocent(g, held + t)
  {
    assert sent + held + t == sent + (held + t);
    InnocentTail(g, sent, held + t);
  }

  lemma InnocentTail(g: Guard, a: string, b: string)
    requires Innocent(g, a + b)
    ensures Innocent(g, b)
  {
    InnocentPart(g, a + b, |a|, |a + b|);
    assert (a + b)[|a|..|a + b|] == b;
  }

  /** With the flush, the pieces are exactly the text. */
  lemma FlushedIsTheText(g: Guard, fragments: seq<string>)
    requires Innocent(g, Join(fragments))
    ensures Join(Flushed(g, fragments)) == Join(fragments)
  {
    var r, text := Run(g, fragments), Join(fragments);
    PiecesAreTheText(g, fragments);
    InnocentPart(g, text, |Join(r.pieces)|, |text|);
    assert text[|Join(r.pieces)|..|text|] == r.held;
    CleanIsIdentity(g, r.held, true);
    JoinOne(r.pieces, r.held);
  }

  lemma {:induction false} SentIsJoined(g: Guard, pieces: seq<string>)
    requires NoAngle(Join(pieces))
    ensures Sent(g, pieces) == Join(pieces)
  {
    if pieces != [] {
      var n := |pieces| - 1;
      var whole := Join(pieces);
      assert forall c | c in Join(pieces[..n]) :: c in whole;
      assert forall c | c in pieces[n] :: c in whole;
      SentIsJoined(g, pieces[..n]);
      NoAngleNoTag(g.alphabet, pieces[n]);
    }
  }

  lemma NoAngleNoTag(a: Alphabet, s: string)
    requires NoAngle(s)
    ensures !HasTag(a, s)
  {
    if HasTag(a, s) {
      var i: nat, e: nat :| i < |s| && e < |s| && TagSpan(a, s, i, e);
      TagStarts(a, s, i, e);
    }
  }

  lemma TagStarts(a: Alphabet, s: string, i: nat, e: nat)
    requires TagSpan(a, s, i, e)
    ensures s[i] == '<' && e - i < LONGEST_TAG
    ensures forall k | i < k < e :: s[k] != '<' && !Blank(s[k])
    ensures !a.space('<') ==> s[e] != '<'
  {
    var t :| t in BLOCK_TAGS && (s[i..e] == "<" + t || s[i..e] == "</" + t);
    BlockTagShape(t);
    var tag := s[i..e];
    assert tag[0] == '<';
    forall k | i < k < e ensures s[k] != '<' && !Blank(s[k]) {
      assert s[k] == tag[k - i];
      assert s[k] in t || s[k] == '/';
    }
  }

  ghost predicate PlainName(t: string) {
    |t| <= 11 && '<' !in t && ' ' !in t && '\n' !in t
  }

  lemma BlockTagShape(t: string)
    requires t in BLOCK_TAGS
    ensures PlainName(t)
  {
    var k :| 0 <= k < |BLOCK_TAGS| && BLOCK_TAGS[k] == t;
    if k < 4 { FirstTags(k); } else if k < 8 { MiddleTags(k); } else { LastTags(k); }
  }

  lemma FirstTags(k: nat)
    requires k < 4
    ensures PlainName(BLOCK_TAGS[k])
  {
    if k == 0 { assert BLOCK_TAGS[k] == "signals"; }
    if k == 1 { assert BLOCK_TAGS[k] == "rules"; }
    if k == 2 { assert BLOCK_TAGS[k] == "soul"; }
    if k == 3 { assert BLOCK_TAGS[k] == "investor"; }
  }

  lemma MiddleTags(k: nat)
    requires 4 <= k < 8
    ensures PlainName(BLOCK_TAGS[k])
  {
    if k == 4 { assert BLOCK_TAGS[k] == "holdings"; }
    if k == 5 { assert BLOCK_TAGS[k] == "user"; }
    if k == 6 { assert BLOCK_TAGS[k] == "identity"; }
    if k == 7 { assert BLOCK_TAGS[k] == "theses"; }
  }

  lemma LastTags(k: nat)
    requires 8 <= k < 12
    ensures PlainName(BLOCK_TAGS[k])
  {
    if k == 8 { assert BLOCK_TAGS[k] == "unknown"; }
    if k == 9 { assert BLOCK_TAGS[k] == "setup"; }
    if k == 10 { assert BLOCK_TAGS[k] == "stage"; }
    if k == 11 { assert BLOCK_TAGS[k] == "soul_change"; }
  }

  /** A piece that quotes a tag of the prompt, opened or closed, is dropped. */
  lemma QuoteIsDropped(a: Alphabet, x: string, closing: bool, t: string, c: char, y: string)
    requires
      t in ["signals", "rules", "soul", "investor", "holdings", "user", "identity", "theses", "unknown", "setup",
            "stage", "soul_change"]
    requires a.space(c) || c == '>' || c == '/'
    ensures Guarded(a, x + (if closing then "</" else "<") + t + [c] + y) == ""
  {
    var tag := (if closing then "</" else "<") + t;
    var s := x + (if closing then "</" else "<") + t + [c] + y;
    var i, e := |x|, |x| + |tag|;
    assert s == x + tag + [c] + y;
    assert s[i..e] == tag && s[e] == c;
    assert t in BLOCK_TAGS;
    assert TagSpan(a, s, i, e);
  }

  /** Secret-free text without `<` is sent unchanged: what left plus what is held is what was fed
      after every `feed`, and all of it has left after `flush`. */
  lemma NothingLost(g: Guard, fragments: seq<string>)
    requires SecretFree(g, Join(fragments)) && NoAngle(Join(fragments))
    ensures Sent(g, Run(g, fragments).pieces) + Run(g, fragments).held == Join(fragments)
    ensures Sent(g, Flushed(g, fragments)) == Join(fragments)
  {
    AngleFreeIsThinkFree(Join(fragments));
    PiecesAreTheText(g, fragments);
    FlushedIsTheText(g, fragments);
    assert forall c | c in Join(Run(g, fragments).pieces) :: c in Join(fragments);
    SentIsJoined(g, Run(g, fragments).pieces);
    SentIsJoined(g, Flushed(g, fragments));
  }

  // ---------- The buffer is bounded ----------

  function LongestFragment(fragments: seq<string>): (n: nat)
    ensures forall t | t in fragments :: |t| <= n
  {
    if fragments == [] then 0
    else
      var n, last := LongestFragment(fragments[..|fragments| - 1]), |fragments[|fragments| - 1]|;
      if last > n then last else n
  }

  /** All but the last `hold` characters are free of the whitespace `feed` cuts at. */
  ghost predicate TailOnly(s: string, hold: nat) {
    forall k: nat | k + hold < |s| :: !Blank(s[k])
  }

  /** A character left after stripping comes from one at least as near to the end. */
  lemma {:induction false} StrippedFrom(s: string, i: nat, p: nat) returns (w: nat)
    requires p < |WithoutThink(s, i)|
    ensures i <= w < |s| && s[w] == WithoutThink(s, i)[p]
    ensures |WithoutThink(s, i)| - p <= |s| - w
    decreases |s| - i
  {
    if ThinkAt(s, i) > 0 {
      w := StrippedFrom(s, i + ThinkAt(s, i), p);
    } else if p > 0 {
      w := StrippedFrom(s, i + 1, p - 1);
    } else {
      w := i;
      StrippedLength(s, i + 1);
    }
  }

  lemma {:induction false} StrippedLength(s: string, i: nat)
    requires i <= |s|
    ensures |WithoutThink(s, i)| <= |s| - i
    decreases |s| - i
  {
    if i < |s| {
      if ThinkAt(s, i) > 0 { StrippedLength(s, i + ThinkAt(s, i)); } else { StrippedLength(s, i + 1); }
    }
  }

  lemma RestIsTailOnly(s: string, hold: nat)
    ensures TailOnly(s[CutOf(s, hold)..], hold)
  {
  }

  ghost predicate Bounded(g: Guard, fragments: seq<string>) {
    var held, n := Run(g, fragments).held, LongestFragment(fragments);
    |held| <= MAX_HOLDS * g.hold || |held| < g.hold + n
  }

  /** On secret-free text without think tags the buffer never exceeds four holds, or one hold and the
      longest fragment (block tags included). */
  lemma {:induction false} BufferBounded(g: Guard, fragments: seq<string>)
    requires Innocent(g, Join(fragments))
    ensures Bounded(g, fragments) && TailOnly(Run(g, fragments).held, g.hold)
  {
    if fragments != [] {
      var n := |fragments| - 1;
      var t0, before, s := Join(fragments[..n]), Run(g, fragments[..n]), Join(fragments);
      InnocentPart(g, s, 0, |t0|);
      assert s[0..|t0|] == t0;
      BufferBounded(g, fragments[..n]);
      PiecesAreTheText(g, fragments[..n]);
      InnocentMiddle(g, Join(before.pieces), before.held, fragments[n]);
      CleanIsIdentity(g, before.held + fragments[n], false);
      NothingStripped(before.held + fragments[n], 0);
      RestBounded(g, before.held, fragments[n]);
    }
  }

  /** A filter that guards nothing keeps the bound on any text, think tags included. */
  lemma {:induction false} BareBufferBounded(g: Guard, fragments: seq<string>)
    requires g.values == []
    ensures Bounded(g, fragments) && TailOnly(Run(g, fragments).held, g.hold)
  {
    if fragments != [] {
      var n := |fragments| - 1;
      var s := Run(g, fragments[..n]).held + fragments[n];
      BareBufferBounded(g, fragments[..n]);
      NoSecretsAtAll(g, WithoutThink(s, 0));
      NothingCleaned(g, s, false);
      RestBounded(g, Run(g, fragments[..n]).held, fragments[n]);
    }
  }

  lemma CutLeaves(s: string, hold: nat)
    ensures CutOf(s, hold) == 0 ==> |s| <= MAX_HOLDS * hold
    ensures CutOf(s, hold) > 0 && !Blank(s[CutOf(s, hold) - 1]) ==> |s| - CutOf(s, hold) <= 2 * hold
  {
  }

  lemma RestBounded(g: Guard, held: string, text: string)
    requires TailOnly(held, g.hold) && Clean(g, held + text, false) == WithoutThink(held + text, 0)
    ensures
      var rest := FeedStep(g, held, text).1;
      TailOnly(rest, g.hold) && (|rest| <= MAX_HOLDS * g.hold || |rest| < g.hold + |text|)
  {
    var s, hold := WithoutThink(held + text, 0), g.hold;
    RestIsTailOnly(s, hold);
    CutLeaves(s, hold);
    var cut := CutOf(s, hold);
    if cut > 0 && Blank(s[cut - 1]) {
      var w := StrippedFrom(held + text, 0, cut - 1);
      assert w < |held| ==> (held + text)[w] == held[w];
      assert |s| - cut < |text| + hold;
    }
  }

  // ---------- Every prompt tag falls inside one piece, which is dropped ----------

  /** Where a cut can be: after whitespace, before a `<`, or, with neither in reach, at the tail. */
  ghost predicate CutShape(s: string, hold: nat, cut: nat) {
    && 0 < cut <= |s| - hold
    && (|| Blank(s[cut - 1])
       || (cut < |s| && s[cut] == '<')
       || (cut > hold && forall k | cut - hold <= k < cut :: s[k] != '<'))
  }

  /** Nothing is sent exactly when the buffer fits the hold, or holds no whitespace before its tail and
      is at most four holds long. What is sent ends at the last whitespace before the tail; with none,
      at the last `<` of the hold before the tail, or, with none there either, at the tail. */
  lemma CutFalls(s: string, hold: nat)
    requires hold > 0
    ensures
      var cut, limit := CutOf(s, hold), |s| - hold;
      var spaced := exists k :: 0 <= k < limit && Blank(s[k]);
      && (cut == 0 <==> limit <= 0 || (!spaced && |s| <= MAX_HOLDS * hold))
      && (cut > 0 ==> cut <= limit)
      && (cut > 0 && spaced ==> Blank(s[cut - 1]) && forall k | cut <= k < limit :: !Blank(s[k]))
      && (cut > 0 && !spaced ==>
            && limit - hold <= cut
            && (cut < limit ==> s[cut] == '<' && forall k | cut < k < limit :: s[k] != '<')
            && (cut == limit ==> forall k | limit - hold <= k < limit :: s[k] != '<'))
  {
    if |s| > hold {
      var limit := |s| - hold;
      var space, line := RFind(s, ' ', 0, limit), RFind(s, '\n', 0, limit);
      assert space >= 0 ==> Blank(s[space]);
      assert line >= 0 ==> Blank(s[line]);
    }
  }

  lemma CutHasShape(s: string, hold: nat)
    requires CutOf(s, hold) > 0 && hold > 0
    ensures CutShape(s, hold, CutOf(s, hold))
  {
  }

  /** Neither cut, at whitespace or forced, falls inside a tag. */
  lemma CutOutsideTag(g: Guard, sent: string, s: string, cut: nat, text: string, i: nat, e: nat)
    requires g.Valid() && sent + s <= text && TagSpan(g.alphabet, text, i, e)
    requires !(i < |sent| <= e) && CutShape(s, g.hold, cut)
    ensures !(i < |sent| + cut <= e)
  {
    if i < |sent| + cut <= e {
      TagStarts(g.alphabet, text, i, e);
      At(sent, s, text, cut - 1);
      At(sent, s, text, i - |sent|);
      At(sent, s, text, cut);
    }
  }

  lemma At(sent: string, s: string, text: string, k: nat)
    requires sent + s <= text && k < |s|
    ensures text[|sent| + k] == s[k]
  {
    assert (sent + s)[|sent| + k] == s[k];
  }

  lemma InnocentPrefix(g: Guard, text: string, t0: string)
    requires Innocent(g, text) && t0 <= text
    ensures Innocent(g, t0)
  {
    InnocentPart(g, text, 0, |t0|);
    assert text[0..|t0|] == t0;
  }

  lemma LastFragment(fragments: seq<string>, text: string)
    requires fragments != [] && Join(fragments) <= text
    ensures
      var n := |fragments| - 1;
      Join(fragments[..n]) + fragments[n] <= text && Join(fragments[..n]) <= text
  {
    var t0 := Join(fragments[..|fragments| - 1]);
    assert t0 <= Join(fragments);
  }

  lemma {:induction false} NoBoundaryInTag(g: Guard, fragments: seq<string>, text: string, i: nat, e: nat)
    requires g.Valid() && Innocent(g, text) && Join(fragments) <= text
    requires TagSpan(g.alphabet, text, i, e)
    ensures !(i < |Join(Run(g, fragments).pieces)| <= e)
  {
    if fragments != [] {
      var n := |fragments| - 1;
      var t0 := Join(fragments[..n]);
      LastFragment(fragments, text);
      NoBoundaryInTag(g, fragments[..n], text, i, e);
      InnocentPrefix(g, text, t0);
      PiecesAreTheText(g, fragments[..n]);
      NewBoundary(g, Run(g, fragments[..n]), fragments[n], t0, text, i, e);
    }
  }

  lemma {:induction false} PiecesOfPrefix(g: Guard, fragments: seq<string>, p: nat)
    requires p <= |fragments|
    ensures |Run(g, fragments).pieces| == |fragments|
    ensures Run(g, fragments).pieces[..p] == Run(g, fragments[..p]).pieces
  {
    RunLength(g, fragments);
    if p == |fragments| {
      assert fragments[..p] == fragments;
    } else {
      PiecesOfPrefix(g, fragments[..|fragments| - 1], p);
      assert fragments[..|fragments| - 1][..p] == fragments[..p];
    }
  }

  lemma NewBoundary(g: Guard, before: Progress, t: string, t0: string, text: string, i: nat, e: nat)
    requires g.Valid() && Innocent(g, text) && t0 + t <= text
    requires TagSpan(g.alphabet, text, i, e)
    requires Join(before.pieces) + before.held == t0
    requires !(i < |Join(before.pieces)| <= e)
    ensures !(i < |Join(before.pieces + [FeedStep(g, before.held, t).0])| <= e)
  {
    var sent, s := Join(before.pieces), before.held + t;
    assert sent + before.held + t == sent + s;
    InnocentPart(g, text, 0, |t0 + t|);
    assert text[0..|t0 + t|] == sent + s;
    InnocentTail(g, sent, s);
    CleanIsIdentity(g, s, false);
    if CutOf(s, g.hold) > 0 {
      CutHasShape(s, g.hold);
      CutOutsideTag(g, sent, s, CutOf(s, g.hold), text, i, e);
    }
    JoinOne(before.pieces, FeedStep(g, before.held, t).0);
  }

  lemma {:induction false} PieceAround(parts: seq<string>, n: nat, i: nat) returns (p: nat)
    requires n <= |parts| && i < |Join(parts[..n])|
    ensures p < n && |Join(parts[..p])| <= i < |Join(parts[..p + 1])|
  {
    assert parts[..n][..n - 1] == parts[..n - 1];
    if i < |Join(parts[..n - 1])| {
      p := PieceAround(parts, n - 1, i);
    } else {
      p := n - 1;
    }
  }

  lemma {:induction false} PieceOfJoin(parts: seq<string>, p: nat)
    requires p < |parts|
    ensures Join(parts[..p]) + parts[p] == Join(parts[..p + 1])
    ensures Join(parts[..p + 1]) <= Join(parts)
    decreases |parts|
  {
    assert parts[..p + 1][..p] == parts[..p];
    if p + 1 < |parts| {
      PieceOfJoin(parts[..|parts| - 1], p);
      assert parts[..|parts| - 1][..p + 1] == parts[..p + 1];
      assert parts[..|parts| - 1][..p] == parts[..p];
    } else {
      assert parts[..p + 1] == parts;
    }
  }

  lemma JoinPrefix(parts: seq<string>, p: nat)
    requires p <= |parts|
    ensures Join(parts[..p]) <= Join(parts)
  {
    if p == 0 {
    } else {
      PieceOfJoin(parts, p - 1);
    }
  }

  lemma FlushedPrefix(g: Guard, fragments: seq<string>, p: nat)
    requires p <= |fragments|
    ensures |Flushed(g, fragments)| == |fragments| + 1
    ensures Flushed(g, fragments)[..p] == Run(g, fragments[..p]).pieces
  {
    PiecesOfPrefix(g, fragments, p);
  }

  /** The tag is in one piece of the text. */
  lemma OnePieceHoldsTag(g: Guard, fragments: seq<string>, i: nat, e: nat) returns (p: nat)
    requires g.Valid() && Innocent(g, Join(fragments)) && TagSpan(g.alphabet, Join(fragments), i, e)
    ensures
      var pieces := Flushed(g, fragments);
      && p < |pieces| && Join(pieces) == Join(fragments)
      && |Join(pieces[..p])| <= i && e < |Join(pieces[..p + 1])|
  {
    var pieces := Flushed(g, fragments);
    FlushedIsTheText(g, fragments);
    assert pieces[..|pieces|] == pieces;
    p := PieceAround(pieces, |pieces|, i);
    FlushedPrefix(g, fragments, 0);
    if p < |fragments| {
      FlushedPrefix(g, fragments, p + 1);
      JoinPrefix(fragments, p + 1);
      NoBoundaryInTag(g, fragments[..p + 1], Join(fragments), i, e);
    } else {
      assert pieces[..p + 1] == pieces;
    }
  }

  /** Every prompt tag in secret-free text without think tags, fed between two flushes, lies wholly in
      one of the pieces it was cut into, under either cut, and that piece is dropped. */
  lemma EveryTagDropped(g: Guard, fragments: seq<string>, i: nat, e: nat) returns (p: nat)
    requires g.Valid() && Innocent(g, Join(fragments)) && TagSpan(g.alphabet, Join(fragments), i, e)
    ensures
      var pieces := Flushed(g, fragments);
      && p < |pieces| && Join(pieces) == Join(fragments)
      && |Join(pieces[..p])| <= i && e < |Join(pieces[..p + 1])|
      && Guarded(g.alphabet, pieces[p]) == ""
  {
    p := OnePieceHoldsTag(g, fragments, i, e);
    var pieces := Flushed(g, fragments);
    PieceOfJoin(pieces, p);
    TagInPiece(g.alphabet, Join(pieces[..p]), pieces[p], Join(fragments), i, e);
  }

  lemma TagInPiece(a: Alphabet, before: string, piece: string, text: string, i: nat, e: nat)
    requires before + piece <= text && TagSpan(a, text, i, e)
    requires |before| <= i && e < |before + piece|
    ensures HasTag(a, piece)
  {
    var x, y := i - |before|, e - |before|;
    assert text[e] == (before + piece)[e] == piece[y];
    assert text[i..e] == (before + piece)[i..e] == piece[x..y];
    assert TagSpan(a, piece, x, y);
  }
}
