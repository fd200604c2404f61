/** The strings hashed to tie a stateless request to its thread
    (services/api/src/api/openai/digests.py). SHA-256 itself is a parameter, `hash`. */
module Digests {
  import opened Wrappers
  import opened Sequences

  // ---------- The encoding: each part prefixed with its length ----------

  predicate IsDigit(c: char) { '0' <= c <= '9' }

  /** `str(n)`. */
  function Decimal(n: nat): (s: string)
    ensures |s| > 0 && forall c | c in s :: IsDigit(c)
  {
    if n < 10 then [DigitOf(n)] else Decimal(n / 10) + [DigitOf(n % 10)]
  }

  function DigitOf(d: nat): (c: char)
    requires d < 10
    ensures IsDigit(c)
  {
    '0' + d as char
  }

  /** What `_digest` hashes. */
  function Encode(parts: seq<string>): string {
    if parts == [] then "" else Decimal(|parts[0]|) + ":" + parts[0] + Encode(parts[1..])
  }

  /** The number its leading digits spell, and where they end. */
  function Number(s: string, i: nat, acc: nat): (nat, nat)
    requires i <= |s|
    ensures i <= Number(s, i, acc).1 <= |s|
    decreases |s| - i
  {
    if i < |s| && IsDigit(s[i]) then Number(s, i + 1, 10 * acc + (s[i] - '0') as nat) else (acc, i)
  }

  /** Reads back the parts an encoding was made of. */
  function Decode(s: string): Option<seq<string>>
    decreases |s|
  {
    if s == "" then Some([])
    else
      var (n, i) := Number(s, 0, 0);
      if i >= |s| || s[i] != ':' || i + 1 + n > |s| then None
      else
        match Decode(s[i + 1 + n..])
        case None => None
        case Some(rest) => Some([s[i + 1..i + 1 + n]] + rest)
  }

  lemma DecimalReads(n: nat, tail: string)
    requires tail == "" || !IsDigit(tail[0])
    ensures Number(Decimal(n) + tail, 0, 0) == (n, |Decimal(n)|)
  {
    NumberAppends(n, tail);
  }

  lemma {:induction false} NumberAppends(n: nat, tail: string)
    ensures Number(Decimal(n) + tail, 0, 0) == Number(Decimal(n) + tail, |Decimal(n)|, n)
  {
    var s := Decimal(n) + tail;
    if n < 10 {
      assert s[0] == DigitOf(n);
    } else {
      var more := [DigitOf(n % 10)] + tail;
      assert s == Decimal(n / 10) + more;
      NumberAppends(n / 10, more);
      assert s[|Decimal(n / 10)|] == DigitOf(n % 10);
    }
  }

  /** Decoding undoes encoding. */
  lemma {:induction false} DecodeEncode(parts: seq<string>)
    ensures Decode(Encode(parts)) == Some(parts)
  {
    if parts != [] {
      var p, rest := parts[0], Encode(parts[1..]);
      var digits, tail := Decimal(|p|), ":" + p + rest;
      var s := Encode(parts);
      assert s == digits + tail;
      DecimalReads(|p|, tail);
      assert s[|digits|] == ':';
      assert s[|digits| + 1..|digits| + 1 + |p|] == p;
      assert s[|digits| + 1 + |p|..] == rest;
      DecodeEncode(parts[1..]);
      assert parts == [p] + parts[1..];
    }
  }

  /** No two different part lists are hashed as the same string. */
  lemma EncodeInjective(x: seq<string>, y: seq<string>)
    requires Encode(x) == Encode(y)
    ensures x == y
  {
    DecodeEncode(x);
    DecodeEncode(y);
  }

  // ---------- Answers with stored reasoning ----------

  const OPEN := "<think>"
  const CLOSE := "</think>"

  /** Where the first `</think>` at or after `i` starts, or None. */
  function FindClose(s: string, i: nat): (r: Option<nat>)
    ensures r.Some? ==> i <= r.value && StartsAt(s, r.value, CLOSE)
    ensures r.Some? ==> forall k: nat | i <= k < r.value :: !StartsAt(s, k, CLOSE)
    ensures r.None? ==> forall k: nat | i <= k :: !StartsAt(s, k, CLOSE)
    decreases |s| - i
  {
    if i > |s| then None
    else if StartsAt(s, i, CLOSE) then Some(i)
    else FindClose(s, i + 1)
  }

  /** `_THINK.sub("", s)` from `i` on: leftmost `<think>`, up to the nearest `</think>`. */
  function WithoutReasoning(s: string, i: nat): string
    decreases |s| - i
  {
    if i >= |s| then ""
    else if StartsAt(s, i, OPEN) && FindClose(s, i + |OPEN|).Some? then
      WithoutReasoning(s, FindClose(s, i + |OPEN|).value + |CLOSE|)
    else [s[i]] + WithoutReasoning(s, i + 1)
  }

  /** `answer_text`; `space` is what `str.strip` strips. */
  function AnswerText(space: char -> bool, answer: string): string {
    Strip(space, WithoutReasoning(answer, 0))
  }

  /** An answer as a client stores it: content, and runs of reasoning wrapped in `<think>`. */
  datatype Segment = Content(text: string) | Reasoning(text: string)

  function Wrapped(p: Segment): string {
    if p.Content? then p.text else OPEN + p.text + CLOSE
  }

  function Sent(p: Segment): string {
    if p.Content? then p.text else ""
  }

  function Stored(parts: seq<Segment>): string {
    if parts == [] then "" else Wrapped(parts[0]) + Stored(parts[1..])
  }

  /** The content alone, as the desk sent it. */
  function Answer(parts: seq<Segment>): string {
    if parts == [] then "" else Sent(parts[0]) + Answer(parts[1..])
  }

  ghost predicate Plain(p: Segment) {
    if p.Content? then '<' !in p.text else forall k: nat :: !StartsAt(p.text, k, CLOSE)
  }

  lemma OpensWithAngle(s: string, i: nat)
    ensures StartsAt(s, i, OPEN) ==> s[i] == '<'
  {
    if StartsAt(s, i, OPEN) { assert s[i] == s[i..i + |OPEN|][0]; }
  }

  lemma {:induction false} ContentKept(text: string, before: string, rest: string, i: nat)
    requires '<' !in text && i <= |text|
    ensures
      var s := before + text + rest;
      WithoutReasoning(s, |before| + i) == text[i..] + WithoutReasoning(s, |before| + |text|)
    decreases |text| - i
  {
    var s := before + text + rest;
    if i < |text| {
      assert s[|before| + i] == text[i];
      OpensWithAngle(s, |before| + i);
      ContentKept(text, before, rest, i + 1);
    }
  }

  /** In a wrapped run the first `</think>` after its opening is the one that closes it: a `<` of
      the closing tag starts no earlier one. */
  lemma CloseFound(text: string, before: string, rest: string)
    requires forall k: nat :: !StartsAt(text, k, CLOSE)
    ensures FindClose(before + text + CLOSE + rest, |before|) == Some(|before| + |text|)
  {
    var s, e := before + text + CLOSE + rest, |before| + |text|;
    Closes(before + text, rest);
    forall k: nat | |before| <= k < e ensures !StartsAt(s, k, CLOSE) {
      NoEarlierClose(text, before, rest, k);
    }
  }

  lemma Closes(before: string, rest: string)
    ensures StartsAt(before + CLOSE + rest, |before|, CLOSE)
  {
    assert (before + CLOSE + rest)[|before|..|before| + |CLOSE|] == CLOSE;
  }

  lemma NoEarlierClose(text: string, before: string, rest: string, k: nat)
    requires |before| <= k < |before| + |text| && !StartsAt(text, k - |before|, CLOSE)
    ensures !StartsAt(before + text + CLOSE + rest, k, CLOSE)
  {
    var s, e := before + text + CLOSE + rest, |before| + |text|;
    var at := k - |before|;
    if k + |CLOSE| <= e {
      assert s[k..k + |CLOSE|] == text[at..at + |CLOSE|];
    } else if k + |CLOSE| <= |s| {
      assert s[e] == '<' && CLOSE[e - k] != '<';
      assert s[k..k + |CLOSE|][e - k] == s[e];
    }
  }

  lemma SegmentRead(before: string, p: Segment, rest: string)
    requires Plain(p)
    ensures
      var s := before + Wrapped(p) + rest;
      WithoutReasoning(s, |before|) == Sent(p) + WithoutReasoning(s, |before + Wrapped(p)|)
  {
    if p.Content? { ContentRead(before, p.text, rest); } else { BlockRead(before, p.text, rest); }
  }

  lemma ContentRead(before: string, text: string, rest: string)
    requires '<' !in text
    ensures
      var s := before + text + rest;
      WithoutReasoning(s, |before|) == text + WithoutReasoning(s, |before + text|)
  {
    ContentKept(text, before, rest, 0);
    assert text[0..] == text;
  }

  lemma BlockRead(before: string, text: string, rest: string)
    requires forall k: nat :: !StartsAt(text, k, CLOSE)
    ensures
      var block := OPEN + text + CLOSE;
      var s := before + block + rest;
      WithoutReasoning(s, |before|) == "" + WithoutReasoning(s, |before + block|)
  {
    var block := OPEN + text + CLOSE;
    assert before + block == before + OPEN + text + CLOSE;
    BlockSkipped(before, text, rest);
    var s := before + block + rest;
    assert "" + WithoutReasoning(s, |before + block|) == WithoutReasoning(s, |before + block|);
  }

  lemma FirstSegment(before: string, parts: seq<Segment>)
    requires parts != []
    ensures before + Stored(parts) == before + Wrapped(parts[0]) + Stored(parts[1..])
  {
    assert Stored(parts) == Wrapped(parts[0]) + Stored(parts[1..]);
  }

  lemma {:induction false} StoredReads(before: string, parts: seq<Segment>)
    requires forall p | p in parts :: Plain(p)
    ensures WithoutReasoning(before + Stored(parts), |before|) == Answer(parts)
    decreases |parts|
  {
    if parts != [] {
      var b := before + Wrapped(parts[0]);
      FirstSegment(before, parts);
      SegmentRead(before, parts[0], Stored(parts[1..]));
      StoredReads(b, parts[1..]);
    }
  }

  lemma BlockShape(before: string, text: string, rest: string)
    requires forall k: nat :: !StartsAt(text, k, CLOSE)
    ensures
      var s, i := before + OPEN + text + CLOSE + rest, |before|;
      StartsAt(s, i, OPEN) && FindClose(s, i + |OPEN|) == Some(|before + OPEN + text + CLOSE| - |CLOSE|)
  {
    var b := before + OPEN;
    CloseFound(text, b, rest);
    Opened(before, text + CLOSE + rest);
    Regroup(b, text, CLOSE, rest);
  }

  lemma BlockSkipped(before: string, text: string, rest: string)
    requires forall k: nat :: !StartsAt(text, k, CLOSE)
    ensures
      var s, end := before + OPEN + text + CLOSE + rest, |before + OPEN + text + CLOSE|;
      WithoutReasoning(s, |before|) == WithoutReasoning(s, end)
  {
    BlockShape(before, text, rest);
    SkipsTo(before + OPEN + text + CLOSE + rest, |before|, |before + OPEN + text + CLOSE|);
  }

  lemma Regroup(x: string, y: string, z: string, w: string)
    ensures x + y + z + w == x + (y + z + w)
  {
  }

  lemma SkipsTo(s: string, i: nat, j: nat)
    requires StartsAt(s, i, OPEN) && j >= |CLOSE| && FindClose(s, i + |OPEN|) == Some(j - |CLOSE|)
    ensures WithoutReasoning(s, i) == WithoutReasoning(s, j)
  {
  }

  lemma Opened(before: string, rest: string)
    ensures StartsAt(before + OPEN + rest, |before|, OPEN)
  {
    assert (before + OPEN + rest)[|before|..|before| + |OPEN|] == OPEN;
  }

  lemma {:induction false} NoAngleKept(s: string, i: nat)
    requires '<' !in s && i <= |s|
    ensures WithoutReasoning(s, i) == s[i..]
    decreases |s| - i
  {
    if i < |s| {
      OpensWithAngle(s, i);
      NoAngleKept(s, i + 1);
    }
  }

  /** A stored answer and the answer as sent name the same alias: `answer_text` undoes the
      wrapping, for content without `<` and reasoning without `</think>`. */
  lemma StoredAnswerIsTheAnswer(space: char -> bool, parts: seq<Segment>)
    requires forall p | p in parts :: Plain(p)
    ensures AnswerText(space, Stored(parts)) == AnswerText(space, Answer(parts))
  {
    StoredReads([], parts);
    assert [] + Stored(parts) == Stored(parts);
    NoAngleInAnswer(parts);
    NoAngleKept(Answer(parts), 0);
  }

  /** Of an answer as sent, without `<`, the alias's text is all but the blanks at its ends; so it is of
      the answer as stored. */
  lemma AnswerTextIsTheContent(space: char -> bool, parts: seq<Segment>) returns (a: string, b: string)
    requires forall p | p in parts :: Plain(p)
    ensures Answer(parts) == a + AnswerText(space, Stored(parts)) + b
    ensures (forall i | 0 <= i < |a| :: space(a[i])) && forall i | 0 <= i < |b| :: space(b[i])
    ensures
      var r := AnswerText(space, Stored(parts));
      r != "" ==> !space(r[0]) && !space(r[|r| - 1])
  {
    StoredAnswerIsTheAnswer(space, parts);
    NoAngleInAnswer(parts);
    NoAngleKept(Answer(parts), 0);
    assert Answer(parts)[0..] == Answer(parts);
    a, b := StripTakesEnds(space, Answer(parts));
  }

  /** A `<think>` that is never closed is no reasoning: text in which no block closes is left as it is. */
  lemma {:induction false} UnclosedStays(s: string, i: nat)
    requires i <= |s|
    requires forall k: nat, l: nat | i <= k && StartsAt(s, k, OPEN) && k + |OPEN| <= l :: !StartsAt(s, l, CLOSE)
    ensures WithoutReasoning(s, i) == s[i..]
    decreases |s| - i
  {
    if i < |s| {
      if StartsAt(s, i, OPEN) { assert FindClose(s, i + |OPEN|).None?; }
      UnclosedStays(s, i + 1);
    }
  }

  lemma {:induction false} NoAngleInAnswer(parts: seq<Segment>)
    requires forall p | p in parts :: Plain(p)
    ensures '<' !in Answer(parts)
  {
    if parts != [] {
      assert Plain(parts[0]);
      NoAngleInAnswer(parts[1..]);
    }
  }

  // ---------- Aliases ----------

  function Digest(hash: string -> string, parts: seq<string>): string {
    hash(Encode(parts))
  }

  function PairAlias(hash: string -> string, space: char -> bool, user: string,
                    prompt: string, answer: string): string {
    Digest(hash, [user, "pair", prompt, AnswerText(space, answer)])
  }

  ghost predicate Injective(hash: string -> string) {
    forall x, y :: hash(x) == hash(y) ==> x == y
  }

  /** With a hash that never collides, two aliases are equal exactly when user, prompt and answer
      text are. */
  lemma AliasesAreExact(hash: string -> string, space: char -> bool, user: string, prompt: string, answer: string,
                        user': string, prompt': string, answer': string)
    requires Injective(hash)
    ensures PairAlias(hash, space, user, prompt, answer) == PairAlias(hash, space, user', prompt', answer')
      <==> user == user' && prompt == prompt' && AnswerText(space, answer) == AnswerText(space, answer')
  {
    var x := [user, "pair", prompt, AnswerText(space, answer)];
    var y := [user', "pair", prompt', AnswerText(space, answer')];
    if Digest(hash, x) == Digest(hash, y) {
      EncodeInjective(x, y);
      assert x[0] == y[0] && x[2] == y[2] && x[3] == y[3];
    }
  }

  lemma OtherPurpose(hash: string -> string, x: seq<string>, y: seq<string>)
    requires Injective(hash) && |x| > 1 && |y| > 1 && x[1] != y[1]
    ensures Digest(hash, x) != Digest(hash, y)
  {
    if Digest(hash, x) == Digest(hash, y) { EncodeInjective(x, y); }
  }

  /** And no alias equals a digest taken for a request key, a first message or a header, whatever parts
      those are made of. */
  lemma AliasesAreOnlyAliases(hash: string -> string, space: char -> bool, user: string, prompt: string, answer: string,
                              user': string, parts: seq<string>)
    requires Injective(hash)
    ensures PairAlias(hash, space, user, prompt, answer) != Digest(hash, [user', "request"] + parts)
    ensures PairAlias(hash, space, user, prompt, answer) != Digest(hash, [user', "first"] + parts)
    ensures PairAlias(hash, space, user, prompt, answer) != Digest(hash, [user', "header"] + parts)
  {
    var x := [user, "pair", prompt, AnswerText(space, answer)];
    assert |"pair"| == 4 && |"request"| == 7 && |"first"| == 5 && |"header"| == 6;
    OtherPurpose(hash, x, [user', "request"] + parts);
    OtherPurpose(hash, x, [user', "first"] + parts);
    OtherPurpose(hash, x, [user', "header"] + parts);
  }
}
