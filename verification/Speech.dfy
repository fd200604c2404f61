/** A long reply cut into pieces to be read aloud (`pieces`, services/api/src/api/voice/speech.py). */
module Speech {
  import opened Sequences

  /** A character and where it stands in the text; the code reads only the character. A blank it adds
      itself stands nowhere. */
  datatype Mark = Mark(c: char, at: int)

  type Text = seq<Mark>

  const BLANK := Mark(' ', -1)

  function Marked(text: string): (s: Text)
    ensures |s| == |text| && forall i | 0 <= i < |s| :: s[i] == Mark(text[i], i)
  {
    seq(|text|, i requires 0 <= i < |text| => Mark(text[i], i))
  }

  // ---------- str.strip, str.rfind, re.split ----------

  function White(space: char -> bool): (white: Mark -> bool)
    ensures forall m :: white(m) == space(m.c)
  {
    (m: Mark) => space(m.c)
  }

  /** `s.rfind(" ", 0, hi)`. */
  function RFindBlank(s: Text, hi: nat): (r: int)
    requires hi <= |s|
    ensures -1 <= r < hi && (r >= 0 ==> s[r].c == ' ')
    ensures forall k | 0 <= k < hi && r < k :: s[k].c != ' '
  {
    if hi == 0 then -1 else if s[hi - 1].c == ' ' then hi - 1 else RFindBlank(s, hi - 1)
  }

  predicate Ends(c: char) { c == '.' || c == '!' || c == '?' || c == '\n' }

  /** The first place from `i` on where whitespace follows a sentence's end, or the length. */
  function Break(space: char -> bool, s: Text, i: nat): (r: nat)
    requires 0 < i <= |s|
    ensures i <= r <= |s| && (r < |s| ==> Ends(s[r - 1].c) && space(s[r].c))
    ensures forall k | i <= k < r :: !(Ends(s[k - 1].c) && space(s[k].c))
    decreases |s| - i
  {
    if i == |s| || (Ends(s[i - 1].c) && space(s[i].c)) then i else Break(space, s, i + 1)
  }

  /** `re.split(r"(?<=[.!?\n])\s+", s)`. */
  function Split(space: char -> bool, s: Text): (r: seq<Text>)
    ensures r != []
    decreases |s|
  {
    if s == [] then [[]]
    else
      var b := Break(space, s, 1);
      if b == |s| then [s] else [s[..b]] + Split(space, LeftStrip(White(space), s[b..]))
  }

  // ---------- Ink: what is not whitespace ----------

  function Ink(space: char -> bool, s: Text): Text {
    if s == [] then []
    else Ink(space, s[..|s| - 1]) + if space(s[|s| - 1].c) then [] else [s[|s| - 1]]
  }

  lemma {:induction false} InkAppends(space: char -> bool, x: Text, y: Text)
    ensures Ink(space, x + y) == Ink(space, x) + Ink(space, y)
    decreases |y|
  {
    if y == [] {
      assert x + y == x;
    } else {
      var init := y[..|y| - 1];
      assert (x + y)[..|x + y| - 1] == x + init;
      InkAppends(space, x, init);
    }
  }

  lemma InkJoins(space: char -> bool, s: Text, x: Text, y: Text)
    requires s == x + y
    ensures Ink(space, s) == Ink(space, x) + Ink(space, y)
  {
    InkAppends(space, x, y);
  }

  lemma InkCuts(space: char -> bool, s: Text, i: nat)
    requires i <= |s|
    ensures Ink(space, s) == Ink(space, s[..i]) + Ink(space, s[i..])
  {
    InkJoins(space, s, s[..i], s[i..]);
  }

  lemma InkOfOne(space: char -> bool, m: Mark)
    ensures Ink(space, [m]) == if space(m.c) then [] else [m]
  {
    assert [m][..0] == [];
  }

  lemma InkStarts(space: char -> bool, s: Text)
    requires s != [] && !space(s[0].c)
    ensures Ink(space, s) != [] && Ink(space, s)[0] == s[0]
  {
    InkCuts(space, s, 1);
    assert s[..1] == [s[0]];
    InkOfOne(space, s[0]);
  }

  lemma {:induction false} InkLeftStripped(space: char -> bool, s: Text)
    ensures Ink(space, LeftStrip(White(space), s)) == Ink(space, s)
  {
    if s != [] && space(s[0].c) {
      InkLeftStripped(space, s[1..]);
      InkCuts(space, s, 1);
      assert s[..1] == [s[0]];
      InkOfOne(space, s[0]);
    }
  }

  lemma {:induction false} InkRightStripped(space: char -> bool, s: Text)
    ensures Ink(space, RightStrip(White(space), s)) == Ink(space, s)
  {
    if s != [] && space(s[|s| - 1].c) { InkRightStripped(space, s[..|s| - 1]); }
  }

  lemma InkStripped(space: char -> bool, s: Text)
    ensures Ink(space, Strip(White(space), s)) == Ink(space, s)
  {
    InkLeftStripped(space, s);
    InkRightStripped(space, LeftStrip(White(space), s));
  }

  lemma {:induction false} JoinFirst(p: Text, parts: seq<Text>)
    ensures Join([p] + parts) == p + Join(parts)
    decreases |parts|
  {
    if parts == [] {
      assert [p] + parts == [] + [p];
      JoinOne([], p);
    } else {
      var init, last := parts[..|parts| - 1], parts[|parts| - 1];
      JoinFirst(p, init);
      assert [p] + parts == ([p] + init) + [last];
      JoinOne([p] + init, last);
    }
  }

  // ---------- Sentences ----------

  /** Empty, or starting with ink. */
  predicate Sound(space: char -> bool, s: Text) { s == [] || !space(s[0].c) }

  ghost predicate AllSound(space: char -> bool, sentences: seq<Text>) {
    forall p | p in sentences :: Sound(space, p)
  }

  lemma {:induction false} SplitSounds(space: char -> bool, s: Text)
    requires Sound(space, s)
    ensures AllSound(space, Split(space, s))
    decreases |s|
  {
    if s == [] {
      assert Split(space, s) == [[]];
    } else if Break(space, s, 1) == |s| {
      assert Split(space, s) == [s];
    } else {
      var b := Break(space, s, 1);
      var rest := LeftStrip(White(space), s[b..]);
      SplitSounds(space, rest);
      assert Split(space, s) == [s[..b]] + Split(space, rest);
      assert s[..b][0] == s[0];
    }
  }

  lemma {:induction false} SplitKeepsInk(space: char -> bool, s: Text)
    ensures Ink(space, Join(Split(space, s))) == Ink(space, s)
    decreases |s|
  {
    if s == [] || Break(space, s, 1) == |s| {
      JoinOne([], s);
      assert Split(space, s) == [] + [s];
      assert [] + s == s;
    } else {
      var b := Break(space, s, 1);
      var rest := LeftStrip(White(space), s[b..]);
      SplitKeepsInk(space, rest);
      InkLeftStripped(space, s[b..]);
      InkCuts(space, s, b);
      JoinFirst(s[..b], Split(space, rest));
      InkAppends(space, s[..b], Join(Split(space, rest)));
    }
  }

  predicate EndsSentence(c: char) { c == '.' || c == '!' || c == '?' || c == '\n' }

  /** A text in which no whitespace follows a sentence's end. */
  ghost predicate OneSentence(space: char -> bool, p: Text) {
    forall k: nat | 0 < k < |p| :: !(EndsSentence(p[k - 1].c) && space(p[k].c))
  }

  lemma FirstSentence(space: char -> bool, s: Text)
    requires s != []
    ensures
      var b := Break(space, s, 1);
      OneSentence(space, s[..b]) && (b < |s| ==> EndsSentence(s[b - 1].c) && space(s[b].c))
  {
  }

  /** No sentence holds a place where whitespace follows a sentence's end, and every one but the last ends
      in such a place. */
  lemma {:induction false} SplitsAtEnds(space: char -> bool, s: Text, j: nat)
    requires j < |Split(space, s)|
    ensures
      var p := Split(space, s)[j];
      OneSentence(space, p) && (j + 1 < |Split(space, s)| ==> p != [] && EndsSentence(p[|p| - 1].c))
    decreases |s|
  {
    if s != [] {
      var b := Break(space, s, 1);
      FirstSentence(space, s);
      if b == |s| {
        assert Split(space, s) == [s] && s[..b] == s;
      } else {
        var rest := LeftStrip(White(space), s[b..]);
        assert Split(space, s) == [s[..b]] + Split(space, rest);
        if j > 0 { SplitsAtEnds(space, rest, j - 1); }
      }
    }
  }

  // ---------- Cutting and packing ----------

  function CutAt(s: Text, limit: nat): (cut: nat)
    requires 1 <= limit < |s|
    ensures 1 <= cut <= limit
  {
    var cut := RFindBlank(s, limit);
    if cut > 0 then cut else limit
  }

  /** The pieces cut off a sentence that is too long, and what is left of it. */
  function CutOff(space: char -> bool, s: Text, limit: nat): (r: (seq<Text>, Text))
    requires limit >= 1
    ensures |r.1| <= limit
    decreases |s|
  {
    if |s| <= limit then ([], s)
    else
      var cut := CutAt(s, limit);
      var (more, rest) := CutOff(space, Strip(White(space), s[cut..]), limit);
      ([Strip(White(space), s[..cut])] + more, rest)
  }

  /** A sentence over the limit is cut at its last blank within the limit, and only if it has none there,
      at the limit; the rest is cut likewise. */
  lemma CutsAtBlank(space: char -> bool, s: Text, limit: nat) returns (cut: nat)
    requires 1 <= limit < |s|
    ensures 1 <= cut <= limit
    ensures
      var rest := CutOff(space, Strip(White(space), s[cut..]), limit);
      CutOff(space, s, limit) == ([Strip(White(space), s[..cut])] + rest.0, rest.1)
    ensures (exists k :: 0 < k < limit && s[k].c == ' ') ==>
      s[cut].c == ' ' && forall k | cut < k < limit :: s[k].c != ' '
    ensures (forall k | 0 < k < limit :: s[k].c != ' ') ==> cut == limit
  {
    cut := CutAt(s, limit);
  }

  predicate Flushes(current: Text, rest: Text, limit: nat) {
    current != [] && |current| + 1 + |rest| > limit
  }

  /** What is pending once the rest of a sentence is taken in. */
  function Pending(space: char -> bool, current: Text, rest: Text, limit: nat): Text {
    if Flushes(current, rest, limit) then rest else Strip(White(space), current + [BLANK] + rest)
  }

  /** Some over-long sentence arrives while an earlier one is still pending. */
  predicate Overtakes(space: char -> bool, current: Text, sentences: seq<Text>, limit: nat)
    requires limit >= 1
    decreases |sentences|
  {
    sentences != [] &&
    ((current != [] && |sentences[0]| > limit)
     || Overtakes(space, Pending(space, current, CutOff(space, sentences[0], limit).1, limit), sentences[1..], limit))
  }

  ghost predicate Fits(parts: seq<Text>, limit: nat) {
    forall p | p in parts :: 1 <= |p| <= limit
  }

  lemma {:induction false} CutKeepsInk(space: char -> bool, s: Text, limit: nat)
    requires limit >= 1 && Sound(space, s)
    ensures
      var (cut, rest) := CutOff(space, s, limit);
      && Ink(space, Join(cut)) + Ink(space, rest) == Ink(space, s)
      && Fits(cut, limit) && Sound(space, rest)
      && (|s| > limit <==> cut != [])
      && (cut != [] ==> Ink(space, Join(cut)) != [] && Ink(space, Join(cut))[0] == s[0])
    decreases |s|
  {
    if |s| > limit {
      var at := CutAt(s, limit);
      var head, tail := Strip(White(space), s[..at]), Strip(White(space), s[at..]);
      CutKeepsInk(space, tail, limit);
      InkCuts(space, s, at);
      InkStripped(space, s[..at]);
      InkStripped(space, s[at..]);
      var (more, rest) := CutOff(space, tail, limit);
      JoinFirst(head, more);
      InkAppends(space, head, Join(more));
      InkStarts(space, head);
      Regroup(Ink(space, head), Ink(space, Join(more)), Ink(space, rest));
    }
  }

  lemma Regroup(x: Text, y: Text, z: Text)
    ensures (x + y) + z == x + (y + z)
  {
  }

  lemma FirstPending(space: char -> bool, rest: Text)
    requires space(' ') && Sound(space, rest)
    ensures |Strip(White(space), [] + [BLANK] + rest)| <= |rest|
  {
    var s := [] + [BLANK] + rest;
    assert s[1..] == rest;
    assert LeftStrip(White(space), s) == LeftStrip(White(space), s[1..]);
  }

  lemma PendingKeepsInk(space: char -> bool, current: Text, rest: Text, limit: nat)
    requires space(' ') && Sound(space, current) && Sound(space, rest) && |current| <= limit && |rest| <= limit
    ensures
      var next := Pending(space, current, rest, limit);
      && Sound(space, next) && |next| <= limit
      && (!Flushes(current, rest, limit) ==> Ink(space, next) == Ink(space, current) + Ink(space, rest))
  {
    InkSpliced(space, current, rest);
    if current == [] { FirstPending(space, rest); }
  }

  lemma InkSpliced(space: char -> bool, current: Text, rest: Text)
    requires space(' ')
    ensures Ink(space, Strip(White(space), current + [BLANK] + rest)) == Ink(space, current) + Ink(space, rest)
  {
    InkStripped(space, current + [BLANK] + rest);
    InkAppends(space, current + [BLANK], rest);
    InkAppends(space, current, [BLANK]);
    InkOfOne(space, BLANK);
    assert Ink(space, current) + [] == Ink(space, current);
  }

  // ---------- The whole text ----------

  ghost predicate NoneTwice(s: Text) {
    forall i, j | 0 <= i < j < |s| :: s[i] != s[j]
  }

  lemma MarkedInkOnce(space: char -> bool, text: string, n: nat)
    requires n <= |text|
    ensures forall m | m in Ink(space, Marked(text)[..n]) :: 0 <= m.at < n
    ensures forall i, j | 0 <= i < j < |Ink(space, Marked(text)[..n])| ::
      Ink(space, Marked(text)[..n])[i].at < Ink(space, Marked(text)[..n])[j].at
    decreases n
  {
    var s := Marked(text);
    if n > 0 {
      MarkedInkOnce(space, text, n - 1);
      assert s[..n][..n - 1] == s[..n - 1];
    }
  }

  /** What the loop keeps: `all` is the ink of the whole text. While no over-long sentence has overtaken
      a pending one, parts, pending text and sentences to come hold it in order; afterwards the parts no
      longer begin as it does. Nothing is ever lost, doubled or made up. */
  ghost predicate Kept(space: char -> bool, all: Text, parts: seq<Text>, current: Text, sentences: seq<Text>,
                       limit: nat, moved: bool) {
    var x, y, z := Ink(space, Join(parts)), Ink(space, current), Ink(space, Join(sentences));
    && Fits(parts, limit) && Sound(space, current) && |current| <= limit && AllSound(space, sentences)
    && multiset(x) + multiset(y) + multiset(z) == multiset(all)
    && (if moved then !(x <= all) else x + y + z == all)
  }

  function Next(space: char -> bool, parts: seq<Text>, current: Text, sentence: Text, limit: nat): (seq<Text>, Text)
    requires limit >= 1
  {
    var (cut, rest) := CutOff(space, sentence, limit);
    (parts + cut + (if Flushes(current, rest, limit) then [current] else []), Pending(space, current, rest, limit))
  }

  lemma {:induction false} EndsStay(space: char -> bool, s: Text)
    requires s != [] && !space(s[|s| - 1].c) && !space(s[0].c)
    ensures Strip(White(space), s) == s
  {
  }

  /** A sentence that fits the limit is added to what is pending, after a blank, while the two fit; else
      what is pending becomes a piece and the sentence is pending. */
  lemma PacksWhileItFits(space: char -> bool, parts: seq<Text>, current: Text, s: Text, limit: nat)
    requires space(' ') && limit >= 1 && s != [] && |s| <= limit && !space(s[0].c) && !space(s[|s| - 1].c)
    requires Sound(space, current)
    ensures Next(space, parts, current, s, limit) ==
      if current == [] then (parts, s)
      else if |current| + 1 + |s| <= limit then (parts, current + [BLANK] + s)
      else (parts + [current], s)
  {
    assert parts + [] == parts && parts + [] + [] == parts;
    if current == [] {
      var t := [] + [BLANK] + s;
      assert t[0] == BLANK && t[1..] == s;
      EndsStay(space, s);
      assert LeftStrip(White(space), t) == LeftStrip(White(space), s);
    } else if |current| + 1 + |s| <= limit {
      var t := current + [BLANK] + s;
      assert t[0] == current[0] && t[|t| - 1] == s[|s| - 1];
      EndsStay(space, t);
    }
  }

  lemma RegroupParts(x: seq<Text>, y: seq<Text>, z: seq<Text>)
    ensures (x + y) + z == x + (y + z)
  {
  }

  lemma {:induction false} JoinAppends(x: seq<Text>, y: seq<Text>)
    ensures Join(x + y) == Join(x) + Join(y)
    decreases |y|
  {
    if y == [] {
      assert x + y == x;
    } else {
      var init, last := y[..|y| - 1], y[|y| - 1];
      JoinAppends(x, init);
      LastBack(y);
      RegroupParts(x, init, [last]);
      JoinOne(x + init, last);
      JoinOne(init, last);
      Regroup(Join(x), Join(init), last);
    }
  }

  /** The ink of the parts and of the pending text after one sentence. */
  lemma NextInk(space: char -> bool, parts: seq<Text>, current: Text, s: Text, limit: nat)
    requires space(' ') && limit >= 1 && Sound(space, current) && |current| <= limit && Sound(space, s)
    ensures
      var (cut, rest) := CutOff(space, s, limit);
      var (parts', current') := Next(space, parts, current, s, limit);
      var x := Ink(space, Join(parts)) + Ink(space, Join(cut));
      && Ink(space, Join(parts')) + Ink(space, current') == x + Ink(space, current) + Ink(space, rest)
      && x <= Ink(space, Join(parts'))
  {
    var (cut, rest) := CutOff(space, s, limit);
    CutKeepsInk(space, s, limit);
    PendingKeepsInk(space, current, rest, limit);
    JoinAppends(parts, cut);
    InkAppends(space, Join(parts), Join(cut));
    var x := Ink(space, Join(parts)) + Ink(space, Join(cut));
    if Flushes(current, rest, limit) {
      JoinOne(parts + cut, current);
      InkAppends(space, Join(parts + cut), current);
    } else {
      assert parts + cut + [] == parts + cut;
      Regroup(x, Ink(space, current), Ink(space, rest));
    }
  }

  lemma NextFits(space: char -> bool, parts: seq<Text>, current: Text, s: Text, limit: nat)
    requires space(' ') && limit >= 1 && Sound(space, current) && |current| <= limit
      && Sound(space, s) && Fits(parts, limit)
    ensures
      var (parts', current') := Next(space, parts, current, s, limit);
      Fits(parts', limit) && Sound(space, current') && |current'| <= limit
  {
    CutKeepsInk(space, s, limit);
    PendingKeepsInk(space, current, CutOff(space, s, limit).1, limit);
  }

  lemma SameCount(x: Text, c: Text, y: Text, r: Text, z: Text)
    ensures multiset(x + c + y + r) + multiset(z) == multiset(x) + multiset(y) + multiset(c + r + z)
  {
    assert x + c + y + r == x + (c + (y + r));
  }

  /** The first ink that overtakes is not the one it should be. */
  lemma Overtaken(all: Text, x: Text, c: Text, y: Text, z: Text)
    requires x + y + (c + z) == all && c != [] && y != []
    requires NoneTwice(all)
    ensures !(x + c <= all)
  {
    assert all[|x|] == y[0] && all[|x| + |y|] == c[0];
    assert (x + c)[|x|] == c[0];
  }

  lemma LongerDiffers(x: Text, x': Text, all: Text)
    requires x <= x' && !(x <= all)
    ensures !(x' <= all)
  {
  }

  lemma OrderStep(all: Text, x: Text, c: Text, y: Text, r: Text, z: Text, x': Text, y': Text, moved: bool)
    requires x' + y' == x + c + y + r && x + c <= x'
    requires if moved then !(x <= all) else x + y + (c + r + z) == all
    requires NoneTwice(all)
    ensures if moved || (c != [] && y != []) then !(x' <= all) else x' + y' + z == all
  {
    if moved {
      LongerDiffers(x, x', all);
    } else if c != [] && y != [] {
      Regroup(c, r, z);
      Overtaken(all, x, c, y, r + z);
      LongerDiffers(x + c, x', all);
    } else {
      assert x + c + y + r + z == x + y + (c + r + z);
    }
  }

  lemma InkThere(space: char -> bool, s: Text)
    requires Sound(space, s)
    ensures Ink(space, s) == [] <==> s == []
  {
    if s != [] { InkStarts(space, s); }
  }

  /** One sentence keeps what the loop keeps. */
  lemma NextKept(space: char -> bool, all: Text, parts: seq<Text>, current: Text, sentences: seq<Text>,
                 limit: nat, moved: bool)
    requires space(' ') && limit >= 1 && sentences != []
    requires Kept(space, all, parts, current, sentences, limit, moved)
    requires NoneTwice(all)
    ensures
      var s := sentences[0];
      var (parts', current') := Next(space, parts, current, s, limit);
      Kept(space, all, parts', current', sentences[1..], limit, moved || (current != [] && |s| > limit))
  {
    var s, more := sentences[0], sentences[1..];
    assert Sound(space, s) by { assert s in sentences; }
    var (cut, rest) := CutOff(space, s, limit);
    var (parts', current') := Next(space, parts, current, s, limit);
    NextFits(space, parts, current, s, limit);
    NextInk(space, parts, current, s, limit);
    CutKeepsInk(space, s, limit);
    InkThere(space, current);
    AllInk(space, s, sentences);
    var x, c, y := Ink(space, Join(parts)), Ink(space, Join(cut)), Ink(space, current);
    var r, z := Ink(space, rest), Ink(space, Join(more));
    SameCount(x, c, y, r, z);
    assert multiset(Ink(space, Join(parts')) + Ink(space, current')) == multiset(x + c + y + r);
    OrderStep(all, x, c, y, r, z, Ink(space, Join(parts')), Ink(space, current'), moved);
  }

  lemma AllInk(space: char -> bool, s: Text, sentences: seq<Text>)
    requires sentences != [] && s == sentences[0]
    ensures Ink(space, Join(sentences)) == Ink(space, s) + Ink(space, Join(sentences[1..]))
  {
    assert sentences == [s] + sentences[1..];
    JoinFirst(s, sentences[1..]);
    InkAppends(space, s, Join(sentences[1..]));
  }

  /** One sentence cut and packed. */
  method TakeIn(space: char -> bool, parts: seq<Text>, current: Text, whole: Text, limit: nat)
    returns (parts': seq<Text>, current': Text)
    requires limit >= 1
    ensures (parts', current') == Next(space, parts, current, whole, limit)
  {
    var sentence := whole;
    parts' := parts;
    while |sentence| > limit
      invariant parts' + CutOff(space, sentence, limit).0 == parts + CutOff(space, whole, limit).0
      invariant CutOff(space, sentence, limit).1 == CutOff(space, whole, limit).1
      decreases |sentence|
    {
      var cut := RFindBlank(sentence, limit);
      if cut <= 0 {
        cut := limit;
      }
      MoreCut(parts', Strip(White(space), sentence[..cut]),
              CutOff(space, Strip(White(space), sentence[cut..]), limit).0);
      parts' := parts' + [Strip(White(space), sentence[..cut])];
      sentence := Strip(White(space), sentence[cut..]);
    }
    assert parts' + [] == parts';
    if current != [] && |current| + 1 + |sentence| > limit {
      parts' := parts' + [current];
      current' := sentence;
    } else {
      assert parts' + [] == parts';
      current' := Strip(White(space), current + [BLANK] + sentence);
    }
  }

  lemma MoreCut(parts: seq<Text>, head: Text, more: seq<Text>)
    ensures parts + ([head] + more) == parts + [head] + more
  {
  }

  function Sentences(space: char -> bool, text: string): seq<Text> {
    Split(space, Strip(White(space), Marked(text)))
  }

  /** `[part for part in parts if part]`. */
  function WithText(parts: seq<Text>): seq<Text> {
    if parts == [] then []
    else WithText(parts[..|parts| - 1]) + if parts[|parts| - 1] == [] then [] else [parts[|parts| - 1]]
  }

  lemma FitsInit(parts: seq<Text>, limit: nat)
    requires Fits(parts, limit) && parts != []
    ensures Fits(parts[..|parts| - 1], limit) && parts[|parts| - 1] != []
  {
    assert parts[|parts| - 1] in parts;
  }

  lemma LastBack(parts: seq<Text>)
    requires parts != []
    ensures parts == parts[..|parts| - 1] + [parts[|parts| - 1]]
  {
  }

  lemma {:induction false} NoneIsEmpty(parts: seq<Text>, limit: nat)
    requires Fits(parts, limit)
    ensures WithText(parts) == parts
  {
    if parts != [] {
      var init, last := parts[..|parts| - 1], parts[|parts| - 1];
      FitsInit(parts, limit);
      NoneIsEmpty(init, limit);
      LastBack(parts);
    }
  }

  lemma InkOnce(space: char -> bool, text: string)
    ensures NoneTwice(Ink(space, Marked(text)))
  {
    MarkedInkOnce(space, text, |text|);
    assert Marked(text)[..|text|] == Marked(text);
  }

  lemma Begins(space: char -> bool, text: string, limit: nat)
    requires limit >= 1
    ensures Kept(space, Ink(space, Marked(text)), [], [], Sentences(space, text), limit, false)
  {
    var s := Strip(White(space), Marked(text));
    SplitKeepsInk(space, s);
    SplitSounds(space, s);
    InkStripped(space, Marked(text));
    Nothing(Ink(space, Marked(text)));
  }

  lemma Nothing(x: Text)
    ensures [] + [] + x == x
  {
  }

  // ---------- When a sentence is read too early ----------

  /** A sentence that leaves something pending: it fits the limit, or its cut leaves a rest. */
  predicate LeavesRest(space: char -> bool, s: Text, limit: nat)
    requires limit >= 1
  {
    CutOff(space, s, limit).1 != []
  }

  ghost predicate SomeLong(sentences: seq<Text>, limit: nat) {
    exists j | 0 <= j < |sentences| :: |sentences[j]| > limit
  }

  /** Some sentence is over the limit after one that leaves something pending. */
  ghost predicate LongAfterRest(space: char -> bool, sentences: seq<Text>, limit: nat)
    requires limit >= 1
  {
    exists i, j | 0 <= i < j < |sentences| :: |sentences[j]| > limit && LeavesRest(space, sentences[i], limit)
  }

  lemma SomeLongFirst(sentences: seq<Text>, limit: nat)
    requires sentences != []
    ensures SomeLong(sentences, limit) <==> |sentences[0]| > limit || SomeLong(sentences[1..], limit)
  {
    var rest := sentences[1..];
    if SomeLong(rest, limit) {
      var j :| 0 <= j < |rest| && |rest[j]| > limit;
      assert sentences[j + 1] == rest[j];
    }
    if j :| 0 < j < |sentences| && |sentences[j]| > limit {
      assert rest[j - 1] == sentences[j];
    }
  }

  lemma LongAfterRestFirst(space: char -> bool, sentences: seq<Text>, limit: nat)
    requires limit >= 1 && sentences != []
    ensures LongAfterRest(space, sentences, limit) <==>
      (LeavesRest(space, sentences[0], limit) && SomeLong(sentences[1..], limit))
      || LongAfterRest(space, sentences[1..], limit)
  {
    var rest := sentences[1..];
    if LeavesRest(space, sentences[0], limit) && SomeLong(rest, limit) {
      var j :| 0 <= j < |rest| && |rest[j]| > limit;
      assert sentences[j + 1] == rest[j];
    }
    if LongAfterRest(space, rest, limit) {
      var i, j :| 0 <= i < j < |rest| && |rest[j]| > limit && LeavesRest(space, rest[i], limit);
      assert sentences[j + 1] == rest[j] && sentences[i + 1] == rest[i];
    }
    if LongAfterRest(space, sentences, limit) {
      var i, j :| 0 <= i < j < |sentences| && |sentences[j]| > limit && LeavesRest(space, sentences[i], limit);
      assert rest[j - 1] == sentences[j] && (i > 0 ==> rest[i - 1] == sentences[i]);
    }
  }

  lemma FirstStays(space: char -> bool, rest: Text)
    requires space(' ') && Sound(space, rest)
    ensures Strip(White(space), [] + [BLANK] + rest) != [] <==> rest != []
  {
    var s := [] + [BLANK] + rest;
    assert s[0] == BLANK && s[1..] == rest;
    assert LeftStrip(White(space), s) == LeftStrip(White(space), rest);
  }

  lemma LaterStays(space: char -> bool, current: Text, rest: Text)
    requires Sound(space, current) && current != []
    ensures Strip(White(space), current + [BLANK] + rest) != []
  {
    assert (current + [BLANK] + rest)[0] == current[0];
  }

  /** What is pending after a sentence that overtakes nothing. */
  lemma PendingStays(space: char -> bool, current: Text, s: Text, limit: nat)
    requires space(' ') && limit >= 1 && Sound(space, current) && |current| <= limit && Sound(space, s) && s != []
    requires current == [] || |s| <= limit
    ensures
      var next := Pending(space, current, CutOff(space, s, limit).1, limit);
      && Sound(space, next) && |next| <= limit
      && (next != [] <==> current != [] || LeavesRest(space, s, limit))
  {
    var rest := CutOff(space, s, limit).1;
    CutKeepsInk(space, s, limit);
    PendingKeepsInk(space, current, rest, limit);
    if current == [] { FirstStays(space, rest); } else { LaterStays(space, current, rest); }
  }

  ghost predicate Whole(space: char -> bool, sentences: seq<Text>) {
    forall s | s in sentences :: s != [] && Sound(space, s)
  }

  lemma {:induction false} OvertakesExactly(space: char -> bool, current: Text, sentences: seq<Text>, limit: nat)
    requires space(' ') && limit >= 1 && Sound(space, current) && |current| <= limit && Whole(space, sentences)
    ensures Overtakes(space, current, sentences, limit) <==>
      (current != [] && SomeLong(sentences, limit)) || LongAfterRest(space, sentences, limit)
    decreases |sentences|
  {
    if sentences != [] {
      var s := sentences[0];
      assert s in sentences;
      SomeLongFirst(sentences, limit);
      LongAfterRestFirst(space, sentences, limit);
      if current == [] || |s| <= limit {
        PendingStays(space, current, s, limit);
        OvertakesExactly(space, Pending(space, current, CutOff(space, s, limit).1, limit), sentences[1..], limit);
      }
    }
  }

  lemma {:induction false} SplitsWhole(space: char -> bool, s: Text)
    requires Sound(space, s) && s != [] && !space(s[|s| - 1].c)
    ensures forall p | p in Split(space, s) :: p != []
    decreases |s|
  {
    var b := Break(space, s, 1);
    if b < |s| {
      var rest := LeftStrip(White(space), s[b..]);
      EndsInInk(space, s[b..]);
      SplitsWhole(space, rest);
      assert Split(space, s) == [s[..b]] + Split(space, rest);
    } else {
      assert Split(space, s) == [s];
    }
  }

  lemma {:induction false} EndsInInk(space: char -> bool, s: Text)
    requires s != [] && !space(s[|s| - 1].c)
    ensures
      var r := LeftStrip(White(space), s);
      r != [] && !space(r[|r| - 1].c)
  {
    if space(s[0].c) { EndsInInk(space, s[1..]); }
  }

  lemma {:induction false} StripEndsInInk(space: char -> bool, s: Text)
    ensures
      var r := RightStrip(White(space), s);
      r != [] ==> !space(r[|r| - 1].c)
  {
    if s != [] && space(s[|s| - 1].c) { StripEndsInInk(space, s[..|s| - 1]); }
  }

  /** A sentence of the text overtakes an earlier one exactly when it is over the limit and some
      sentence before it leaves something pending. */
  lemma TextOvertakes(space: char -> bool, text: string, limit: nat)
    requires space(' ') && limit >= 1
    ensures
      var sentences := Sentences(space, text);
      Overtakes(space, [], sentences, limit) <==> LongAfterRest(space, sentences, limit)
  {
    var s := Strip(White(space), Marked(text));
    StripEndsInInk(space, LeftStrip(White(space), Marked(text)));
    SplitSounds(space, s);
    if s == [] {
      var none: seq<Text> := [[]];
      assert Split(space, s) == none && none[1..] == [];
    } else {
      SplitsWhole(space, s);
      OvertakesExactly(space, [], Split(space, s), limit);
    }
  }

  /** Every piece has 1 to `limit` characters; together they hold every character of the text that is
      not whitespace exactly once; and they hold them in order exactly when no sentence over the limit
      comes after one that leaves something pending. */
  method Pieces(space: char -> bool, text: string, limit: nat) returns (pieces: seq<Text>)
    requires space(' ') && limit >= 1
    ensures Fits(pieces, limit)
    ensures multiset(Ink(space, Join(pieces))) == multiset(Ink(space, Marked(text)))
    ensures Ink(space, Join(pieces)) == Ink(space, Marked(text))
      <==> !LongAfterRest(space, Sentences(space, text), limit)
  {
    ghost var all, moved := Ink(space, Marked(text)), false;
    var parts: seq<Text>, current: Text := [], [];
    var sentences := Sentences(space, text);
    Begins(space, text, limit);
    InkOnce(space, text);
    var i := 0;
    while i < |sentences|
      invariant 0 <= i <= |sentences|
      invariant Kept(space, all, parts, current, sentences[i..], limit, moved)
      invariant moved || Overtakes(space, current, sentences[i..], limit) <==> Overtakes(space, [], sentences, limit)
    {
      NextKept(space, all, parts, current, sentences[i..], limit, moved);
      Onward(sentences, i);
      moved := moved || (current != [] && |sentences[i]| > limit);
      parts, current := TakeIn(space, parts, current, sentences[i], limit);
      i := i + 1;
    }
    Finishes(space, all, parts, current, limit, moved);
    if current != [] {
      parts := parts + [current];
    }
    NoneIsEmpty(parts, limit);
    TextOvertakes(space, text, limit);
    pieces := WithText(parts);
  }

  lemma Onward(sentences: seq<Text>, i: nat)
    requires i < |sentences|
    ensures sentences[i..][0] == sentences[i] && sentences[i..][1..] == sentences[i + 1..]
  {
  }

  lemma Finishes(space: char -> bool, all: Text, parts: seq<Text>, current: Text, limit: nat, moved: bool)
    requires Kept(space, all, parts, current, [], limit, moved)
    ensures
      var last := if current == [] then parts else parts + [current];
      && Fits(last, limit)
      && multiset(Ink(space, Join(last))) == multiset(all)
      && (Ink(space, Join(last)) == all <==> !moved)
  {
    var x, y := Ink(space, Join(parts)), Ink(space, current);
    JoinOne(parts, current);
    InkAppends(space, Join(parts), current);
    assert x + y + [] == x + y && x + [] == x;
    if moved { LongerDiffers(x, x + y, all); }
  }

  /** Out of order: with a limit of 2, "BC" is read before "A.". */
  lemma OvertakenText(space: char -> bool)
    requires space(' ') && forall c | c in "A.BCD" :: !space(c)
    ensures LongAfterRest(space, Sentences(space, "A. BCD"), 2)
  {
    var s := Marked("A. BCD");
    assert forall i | 0 <= i < 6 && i != 2 :: !space(s[i].c);
    assert RightStrip(White(space), s) == s == LeftStrip(White(space), s);
    assert Break(space, s, 1) == 2;
    var rest := s[2..];
    assert rest[1..] == s[3..];
    assert LeftStrip(White(space), rest) == LeftStrip(White(space), rest[1..]) == s[3..];
    assert forall k | 0 <= k < 3 :: !Ends(s[3..][k].c);
    assert Break(space, s[3..], 1) == 3;
    var sentences := [s[..2], s[3..]];
    assert Split(space, s) == [s[..2]] + [s[3..]] == sentences;
    assert LeavesRest(space, sentences[0], 2) && |sentences[1]| > 2;
  }
}
