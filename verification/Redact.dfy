/** The streaming redactor (services/agent/src/worker/redact.py): what of the model's raw
    reasoning may leave the worker, however the text is cut into fragments.

    Python's character classes are parameters (`Alphabet`), so every statement below holds for any
    notion of word character, whitespace and case folding in which `]` is not a word character and
    `<` is not whitespace. */
module Redact {
  import opened Sequences

  const REDACTED: string := "[redacted]"
  const BLOCK_TAGS: seq<string> := [
    "signals", "rules", "soul", "investor", "holdings", "user", "identity",
    "theses", "unknown", "setup", "stage", "soul_change"]
  // The length of `</soul_change>`.
  const LONGEST_TAG: nat := 14
  const MAX_HOLDS: nat := 4

  // ---------- Patterns ----------

  /** `\w`, `\s` and the case folding of `re.IGNORECASE` (equal folds match). */
  datatype Alphabet = Alphabet(word: char -> bool, space: char -> bool, fold: char -> char)

  /** A compiled filter: the secrets longest first, and how much text is held back. */
  datatype Guard = Guard(alphabet: Alphabet, values: seq<string>, hold: nat)
  {
    ghost predicate Valid() {
      && !alphabet.word(']') && !alphabet.space('<')
      && LONGEST_TAG <= hold
      && forall v | v in values :: 0 < |v| <= hold
    }
  }

  /** What may follow a secret: a non-word character, or the end once nothing more can come. */
  predicate Ends(a: Alphabet, s: string, j: nat, closed: bool)
    requires j <= |s|
  {
    if j == |s| then closed else !a.word(s[j])
  }

  /** `v` stands at `i` as a whole word, in any case. */
  predicate Fits(a: Alphabet, v: string, s: string, i: nat, closed: bool) {
    && i + |v| <= |s|
    && (i == 0 || !a.word(s[i - 1]))
    && (forall k | 0 <= k < |v| :: a.fold(s[i + k]) == a.fold(v[k]))
    && Ends(a, s, i + |v|, closed)
  }

  /** The length of the first alternative that matches at `i`, or 0. */
  function FirstFit(a: Alphabet, values: seq<string>, s: string, i: nat, closed: bool): (n: nat)
    ensures n > 0 ==> exists v :: v in values && n == |v| && Fits(a, v, s, i, closed)
    ensures n == 0 ==> forall v | v in values :: |v| == 0 || !Fits(a, v, s, i, closed)
  {
    if values == [] then 0
    else if |values[0]| > 0 && Fits(a, values[0], s, i, closed) then |values[0]|
    else FirstFit(a, values[1..], s, i, closed)
  }

  /** How long the match that starts at each position of `s` is; 0 for none. */
  function Matches(g: Guard, s: string, closed: bool): (ns: seq<nat>)
    ensures Within(ns, |s|)
    ensures forall i | 0 <= i < |s| :: ns[i] == FirstFit(g.alphabet, g.values, s, i, closed)
  {
    seq(|s|, i requires 0 <= i < |s| => FirstFit(g.alphabet, g.values, s, i, closed))
  }

  /** Of all secrets that stand at a position the longest is replaced. */
  lemma {:induction false} LongestWins(a: Alphabet, values: seq<string>, s: string, i: nat, closed: bool, v: string)
    requires forall x, y | 0 <= x < y < |values| :: |values[x]| >= |values[y]|
    requires v in values && v != "" && Fits(a, v, s, i, closed)
    ensures |v| <= FirstFit(a, values, s, i, closed)
  {
    if |values[0]| == 0 || !Fits(a, values[0], s, i, closed) {
      LongestWins(a, values[1..], s, i, closed, v);
    }
  }

  ghost predicate Within(ns: seq<nat>, n: nat) {
    |ns| == n && forall i | 0 <= i < n :: i + ns[i] <= n
  }

  /** `secrets.sub(REDACTED, s)` from position `i` on: leftmost matches, never overlapping. */
  function Substitute(s: string, ns: seq<nat>, i: nat): string
    requires Within(ns, |s|)
    decreases |s| - i
  {
    if i >= |s| then ""
    else if ns[i] > 0 then REDACTED + Substitute(s, ns, i + ns[i])
    else [s[i]] + Substitute(s, ns, i + 1)
  }

  /** The length of a `<think>` or `</think>` at `i`, or 0. */
  function ThinkAt(s: string, i: nat): nat {
    if StartsAt(s, i, "<think>") then 7
    else if StartsAt(s, i, "</think>") then 8
    else 0
  }

  /** `_THINK.sub("", s)` from position `i` on. */
  function WithoutThink(s: string, i: nat): string
    decreases |s| - i
  {
    if i >= |s| then ""
    else if ThinkAt(s, i) > 0 then WithoutThink(s, i + ThinkAt(s, i))
    else [s[i]] + WithoutThink(s, i + 1)
  }

  function Clean(g: Guard, s: string, closed: bool): string {
    var w := WithoutThink(s, 0);
    Substitute(w, Matches(g, w, closed), 0)
  }

  /** A prompt block tag, `</?name` and the character that must follow it, from `i` up to `e`. */
  predicate TagSpan(a: Alphabet, s: string, i: nat, e: nat) {
    && i < e < |s|
    && (a.space(s[e]) || s[e] == '>' || s[e] == '/')
    && exists t | t in BLOCK_TAGS :: s[i..e] == "<" + t || s[i..e] == "</" + t
  }

  predicate HasTag(a: Alphabet, s: string) {
    exists i: nat, e: nat | i < |s| && e < |s| :: TagSpan(a, s, i, e)
  }

  function Guarded(a: Alphabet, piece: string): string {
    if HasTag(a, piece) then "" else piece
  }

  // ---------- Where the buffer is cut ----------

  /** Python's `s.rfind(c, lo, hi)`. */
  function RFind(s: string, c: char, lo: nat, hi: nat): (r: int)
    requires lo <= hi <= |s|
    ensures r == -1 || (lo <= r < hi && s[r] == c)
    ensures forall k | lo <= k < hi && r < k :: s[k] != c
    decreases hi
  {
    if lo == hi then -1
    else if s[hi - 1] == c then hi - 1
    else RFind(s, c, lo, hi - 1)
  }

  predicate Blank(c: char) { c == ' ' || c == '\n' }

  /** How much of the buffer `feed` sends: up to the last whitespace before the held tail, else,
      once the buffer is long enough, up to the tail or a `<` just before it. */
  function CutOf(s: string, hold: nat): (cut: nat)
    ensures cut > 0 ==> cut + hold <= |s|
  {
    if |s| <= hold then 0
    else
      var limit := |s| - hold;
      var space, line := RFind(s, ' ', 0, limit), RFind(s, '\n', 0, limit);
      var cut := (if space > line then space else line) + 1;
      if cut <= 0 && |s| > MAX_HOLDS * hold then
        var tag := RFind(s, '<', limit - hold, limit);
        if tag > 0 then tag else limit
      else cut
  }

  // ---------- Runs: the fragments fed since the last flush ----------

  /** The pieces cut so far and what is still held back. */
  datatype Progress = Progress(pieces: seq<string>, held: string)

  function FeedStep(g: Guard, held: string, text: string): (r: (string, string))
    ensures r.0 + r.1 == Clean(g, held + text, false)
  {
    var s := Clean(g, held + text, false);
    var cut := CutOf(s, g.hold);
    (s[..cut], s[cut..])
  }

  function Run(g: Guard, fragments: seq<string>): Progress {
    if fragments == [] then Progress([], "")
    else
      var before := Run(g, fragments[..|fragments| - 1]);
      var (piece, rest) := FeedStep(g, before.held, fragments[|fragments| - 1]);
      Progress(before.pieces + [piece], rest)
  }

  /** Every piece of a run that ends in a flush. */
  function Flushed(g: Guard, fragments: seq<string>): seq<string> {
    var r := Run(g, fragments);
    r.pieces + [Clean(g, r.held, true)]
  }

  /** What leaves the filter: each piece, unless it quotes a prompt tag. */
  function Sent(g: Guard, pieces: seq<string>): string {
    if pieces == [] then ""
    else Sent(g, pieces[..|pieces| - 1]) + Guarded(g.alphabet, pieces[|pieces| - 1])
  }

  // ---------- The filter object ----------

  /** The secrets with text in them, longest first. */
  function LongestFirst(a: Alphabet, secrets: seq<string>): (values: seq<string>)
    ensures forall v | v in values :: v in secrets && |v| > 0 && exists c | c in v :: !a.space(c)
    ensures forall v | v in secrets && exists c | c in v :: !a.space(c) :: v in values
    ensures forall i, j | 0 <= i < j < |values| :: |values[i]| >= |values[j]|
  {
    if secrets == [] then []
    else if forall c | c in secrets[0] :: a.space(c) then LongestFirst(a, secrets[1..])
    else Inserted(secrets[0], LongestFirst(a, secrets[1..]))
  }

  function Inserted(v: string, values: seq<string>): (r: seq<string>)
    requires forall i, j | 0 <= i < j < |values| :: |values[i]| >= |values[j]|
    ensures forall i, j | 0 <= i < j < |r| :: |r[i]| >= |r[j]|
    ensures forall x :: x in r <==> x == v || x in values
  {
    if values == [] || |v| >= |values[0]| then [v] + values
    else
      var rest := Inserted(v, values[1..]);
      assert forall x | x in rest :: |x| <= |values[0]|;
      [values[0]] + rest
  }

  function LongestOf(values: seq<string>): (n: nat)
    ensures LONGEST_TAG <= n && forall v | v in values :: |v| <= n
    ensures n == LONGEST_TAG || exists v :: v in values && n == |v|
  {
    if values == [] then LONGEST_TAG
    else
      var n := LongestOf(values[1..]);
      if |values[0]| > n then |values[0]| else n
  }

  class ReasoningFilter {
    const g: Guard
    var buffer: string
    // The fragments fed since the last flush, and the pieces cut from them.
    ghost var fragments: seq<string>
    ghost var pieces: seq<string>

    ghost predicate Valid()
      reads this
    {
      g.Valid() && Run(g, fragments) == Progress(pieces, buffer)
    }

    constructor (a: Alphabet, secrets: seq<string>)
      requires !a.word(']') && !a.space('<')
      ensures Valid() && fragments == [] && buffer == "" && g.alphabet == a
      ensures g.hold == 14 || exists v :: v in g.values && |v| == g.hold
      ensures forall v | v in secrets && exists c | c in v :: !a.space(c) :: v in g.values
      ensures forall v | v in g.values :: v in secrets
    {
      var values := LongestFirst(a, secrets);
      g := Guard(a, values, LongestOf(values));
      buffer := "";
      fragments, pieces := [], [];
    }

    method Feed(text: string) returns (out: string)
      requires Valid()
      modifies this
      ensures Valid() && fragments == old(fragments) + [text]
      ensures |pieces| == |fragments| && pieces[..|pieces| - 1] == old(pieces)
      ensures out == Guarded(g.alphabet, pieces[|pieces| - 1])
    {
      FeedExtendsRun(g, fragments, text);
      fragments, pieces := fragments + [text], pieces + [FeedStep(g, buffer, text).0];
      buffer := Clean(g, buffer + text, false);
      var cut := CutOf(buffer, g.hold);
      if cut == 0 {
        return "";
      }
      var ready := buffer[..cut];
      buffer := buffer[cut..];
      out := Guarded(g.alphabet, ready);
    }

    method Flush() returns (out: string)
      requires Valid()
      modifies this
      ensures Valid() && fragments == [] && buffer == ""
      ensures old(pieces) + [Clean(g, old(buffer), true)] == Flushed(g, old(fragments))
      ensures out == Guarded(g.alphabet, Clean(g, old(buffer), true))
    {
      var ready := Clean(g, buffer, true);
      buffer := "";
      fragments, pieces := [], [];
      out := Guarded(g.alphabet, ready);
    }
  }

  lemma FeedExtendsRun(g: Guard, fragments: seq<string>, text: string)
    ensures
      var before := Run(g, fragments);
      var step := FeedStep(g, before.held, text);
      Run(g, fragments + [text]) == Progress(before.pieces + [step.0], step.1)
    ensures |Run(g, fragments).pieces| == |fragments|
  {
    assert (fragments + [text])[..|fragments|] == fragments;
    RunLength(g, fragments);
  }

  lemma {:induction false} RunLength(g: Guard, fragments: seq<string>)
    ensures |Run(g, fragments).pieces| == |fragments|
  {
    if fragments != [] { RunLength(g, fragments[..|fragments| - 1]); }
  }
}
