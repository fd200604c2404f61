/** Think tags in the reasoning (services/agent/src/worker/redact.py): they are taken out, and nothing
    else changes by it. A text is given by what it spells: words without `<`, and tags. */
module RedactTags {
  import opened Redact
  import opened RedactProofs
  import RedactSecrets
  import opened Sequences

  datatype Bit = Word(text: string) | OpenTag | CloseTag

  function Spell(b: Bit): string {
    match b case Word(text) => text case OpenTag => "<think>" case CloseTag => "</think>"
  }

  function Spelled(bits: seq<Bit>): string {
    if bits == [] then "" else Spell(bits[0]) + Spelled(bits[1..])
  }

  /** The words alone. */
  function Said(bits: seq<Bit>): string {
    if bits == [] then "" else (if bits[0].Word? then bits[0].text else "") + Said(bits[1..])
  }

  ghost predicate Plain(bits: seq<Bit>) {
    forall b | b in bits && b.Word? :: NoAngle(b.text)
  }

  // ---------- Taking the tags out ----------

  /** `t` is what `s` holds from `i` on. */
  ghost predicate Shifted(s: string, t: string, i: nat) {
    |s| == i + |t| && forall x | 0 <= x < |t| :: t[x] == s[i + x]
  }

  lemma SameStart(s: string, t: string, i: nat, k: nat, p: string)
    requires Shifted(s, t, i) && k <= |t|
    ensures StartsAt(s, i + k, p) <==> StartsAt(t, k, p)
  {
    if k + |p| <= |t| { assert s[i + k..i + k + |p|] == t[k..k + |p|]; }
  }

  lemma SameTag(s: string, t: string, i: nat, k: nat)
    requires Shifted(s, t, i) && k < |t|
    ensures ThinkAt(s, i + k) == ThinkAt(t, k) && s[i + k] == t[k] && k + Stride(t, k) <= |t|
  {
    SameStart(s, t, i, k, "<think>");
    SameStart(s, t, i, k, "</think>");
  }

  /** How far stripping goes on at a position. */
  function Stride(s: string, i: nat): (n: nat)
    ensures n > 0
  {
    if ThinkAt(s, i) > 0 then ThinkAt(s, i) else 1
  }

  lemma StripsNext(s: string, p: nat, t: string, k: nat, n: nat)
    requires p < |s| && k < |t| && ThinkAt(s, p) == ThinkAt(t, k) && s[p] == t[k] && n == Stride(t, k)
    requires WithoutThink(s, p + n) == WithoutThink(t, k + n)
    ensures WithoutThink(s, p) == WithoutThink(t, k)
  {
  }

  lemma StripsEnd(s: string, i: nat)
    requires i >= |s|
    ensures WithoutThink(s, i) == ""
  {
  }

  lemma {:induction false} StripsShifted(s: string, t: string, i: nat, k: nat)
    requires Shifted(s, t, i) && k <= |t|
    ensures WithoutThink(s, i + k) == WithoutThink(t, k)
    decreases |t| - k
  {
    if k == |t| {
      StripsEnd(s, i + k);
      StripsEnd(t, k);
    } else {
      var n := Stride(t, k);
      SameTag(s, t, i, k);
      StripsShifted(s, t, i, k + n);
      assert i + (k + n) == i + k + n;
      StripsNext(s, i + k, t, k, n);
    }
  }

  lemma StripsFrom(s: string, i: nat)
    requires i <= |s|
    ensures WithoutThink(s, i) == WithoutThink(s[i..], 0)
  {
    StripsShifted(s, s[i..], i, 0);
  }

  lemma CharacterStrips(c: char, rest: string)
    requires c != '<'
    ensures WithoutThink([c] + rest, 0) == [c] + WithoutThink(rest, 0)
  {
    var s := [c] + rest;
    FirstCharacter(s, 0, "<think>");
    FirstCharacter(s, 0, "</think>");
    StripsFrom(s, 1);
    assert s[1..] == rest;
  }

  lemma {:induction false} WordStrips(w: string, rest: string)
    requires NoAngle(w)
    ensures WithoutThink(w + rest, 0) == w + WithoutThink(rest, 0)
    decreases |w|
  {
    if w == "" {
      assert w + rest == rest;
      assert w + WithoutThink(rest, 0) == WithoutThink(rest, 0);
    } else {
      var first, more := [w[0]], w[1..];
      assert w == first + more;
      WordStrips(more, rest);
      Regroup(first, more, rest);
      CharacterStrips(w[0], more + rest);
      Regroup(first, more, WithoutThink(rest, 0));
    }
  }

  lemma TagStands(tag: string, rest: string)
    requires tag == "<think>" || tag == "</think>"
    ensures ThinkAt(tag + rest, 0) == |tag|
  {
    var s := tag + rest;
    assert s[0..|tag|] == tag;
    if tag == "</think>" { assert s[0..7][1] == '/'; }
  }

  lemma TagStrips(tag: string, rest: string)
    requires tag == "<think>" || tag == "</think>"
    ensures WithoutThink(tag + rest, 0) == WithoutThink(rest, 0)
  {
    TagStands(tag, rest);
    assert (tag + rest)[|tag|..] == rest;
    StripsFrom(tag + rest, |tag|);
  }

  lemma BitStrips(b: Bit, rest: string)
    requires b.Word? ==> NoAngle(b.text)
    ensures WithoutThink(Spell(b) + rest, 0) == (if b.Word? then b.text else "") + WithoutThink(rest, 0)
  {
    if b.Word? {
      WordStrips(b.text, rest);
    } else {
      TagStrips(Spell(b), rest);
      assert "" + WithoutThink(rest, 0) == WithoutThink(rest, 0);
    }
  }

  lemma {:induction false} BitsStrip(bits: seq<Bit>, rest: string)
    requires Plain(bits)
    ensures WithoutThink(Spelled(bits) + rest, 0) == Said(bits) + WithoutThink(rest, 0)
  {
    if bits == [] {
      assert Spelled(bits) + rest == rest;
      assert Said(bits) + WithoutThink(rest, 0) == WithoutThink(rest, 0);
    } else {
      var b, more := bits[0], Spelled(bits[1..]);
      assert b in bits && forall x | x in bits[1..] :: x in bits;
      BitsStrip(bits[1..], rest);
      Regroup(Spell(b), more, rest);
      BitStrips(b, more + rest);
      Regroup(if b.Word? then b.text else "", Said(bits[1..]), WithoutThink(rest, 0));
    }
  }

  lemma Regroup(x: string, y: string, z: string)
    ensures x + (y + z) == (x + y) + z
  {
  }

  lemma {:induction false} SaidHasNoAngle(bits: seq<Bit>)
    requires Plain(bits)
    ensures NoAngle(Said(bits))
  {
    if bits != [] {
      assert bits[0] in bits;
      SaidHasNoAngle(bits[1..]);
    }
  }

  // ---------- Tags that lie within one fragment ----------

  function AllSpelled(texts: seq<seq<Bit>>): (r: seq<string>)
    ensures |r| == |texts| && forall k | 0 <= k < |r| :: r[k] == Spelled(texts[k])
  {
    seq(|texts|, k requires 0 <= k < |texts| => Spelled(texts[k]))
  }

  function AllSaid(texts: seq<seq<Bit>>): (r: seq<string>)
    ensures |r| == |texts| && forall k | 0 <= k < |r| :: r[k] == Said(texts[k])
  {
    seq(|texts|, k requires 0 <= k < |texts| => Said(texts[k]))
  }

  lemma MaskHasNoAngle()
    ensures NoAngle(REDACTED)
  {
  }

  lemma {:induction false} SubstituteAddsNoAngle(s: string, ns: seq<nat>, i: nat)
    requires Within(ns, |s|) && NoAngle(s)
    ensures NoAngle(Substitute(s, ns, i))
    decreases |s| - i
  {
    if i < |s| {
      MaskHasNoAngle();
      SubstituteAddsNoAngle(s, ns, if ns[i] > 0 then i + ns[i] else i + 1);
    }
  }

  /** A fragment whose tags are whole is cut as the same fragment without them. */
  lemma SameStep(g: Guard, held: string, bits: seq<Bit>)
    requires NoAngle(held) && Plain(bits)
    ensures FeedStep(g, held, Spelled(bits)) == FeedStep(g, held, Said(bits))
    ensures NoAngle(FeedStep(g, held, Said(bits)).1)
  {
    BitsStrip(bits, "");
    assert Spelled(bits) + "" == Spelled(bits) && Said(bits) + "" == Said(bits);
    WordStrips(held, Spelled(bits));
    SaidHasNoAngle(bits);
    WordStrips(held, Said(bits));
    WordStrips(Said(bits), "");
    var s := held + Said(bits);
    SubstituteAddsNoAngle(s, Matches(g, s, false), 0);
    var cleaned := Clean(g, s, false);
    assert NoAngle(cleaned);
    assert forall c | c in cleaned[CutOf(cleaned, g.hold)..] :: c in cleaned;
  }

  lemma LastSpelled(texts: seq<seq<Bit>>)
    requires texts != []
    ensures
      var n := |texts| - 1;
      && AllSpelled(texts)[..n] == AllSpelled(texts[..n]) && AllSpelled(texts)[n] == Spelled(texts[n])
      && AllSaid(texts)[..n] == AllSaid(texts[..n]) && AllSaid(texts)[n] == Said(texts[n])
  {
  }

  /** When no think tag is split between fragments, the filter does with a text exactly what it does with
      the text without its tags: whatever is proved of text without `<` holds of what is said. */
  lemma {:induction false} WholeTagsVanish(g: Guard, texts: seq<seq<Bit>>)
    requires forall bits | bits in texts :: Plain(bits)
    ensures Run(g, AllSpelled(texts)) == Run(g, AllSaid(texts)) && NoAngle(Run(g, AllSaid(texts)).held)
    ensures Flushed(g, AllSpelled(texts)) == Flushed(g, AllSaid(texts))
  {
    if texts != [] {
      var n := |texts| - 1;
      assert texts[n] in texts && forall bits | bits in texts[..n] :: bits in texts;
      WholeTagsVanish(g, texts[..n]);
      LastSpelled(texts);
      SameStep(g, Run(g, AllSaid(texts[..n])).held, texts[n]);
    }
  }

  lemma {:induction false} AllSaidHasNoAngle(texts: seq<seq<Bit>>)
    requires forall bits | bits in texts :: Plain(bits)
    ensures NoAngle(Join(AllSaid(texts)))
  {
    if texts != [] {
      var n := |texts| - 1;
      assert texts[n] in texts && forall bits | bits in texts[..n] :: bits in texts;
      LastSpelled(texts);
      SaidHasNoAngle(texts[n]);
      AllSaidHasNoAngle(texts[..n]);
    }
  }

  /** There too no secret is sent: every whole word of what is said that is a secret has lost a character
      to a replacement. */
  lemma NoSecretBesideTags(g: Guard, texts: seq<seq<Bit>>, v: string, i: nat)
    requires g.Valid() && forall bits | bits in texts :: Plain(bits)
    requires v in g.values && Fits(g.alphabet, v, Join(AllSaid(texts)), i, true)
    ensures
      var text, cells := Join(AllSaid(texts)), RedactSecrets.FlushTrace(g, AllSaid(texts));
      && RedactSecrets.Chars(cells) == Sent(g, Flushed(g, AllSpelled(texts)))
      && RedactSecrets.Covers(text, cells)
      && exists k: nat :: i <= k < i + |v| && RedactSecrets.Raw(text[k], k) !in cells
  {
    WholeTagsVanish(g, texts);
    AllSaidHasNoAngle(texts);
    AngleFreeIsThinkFree(Join(AllSaid(texts)));
    RedactSecrets.NoSecretSent(g, AllSaid(texts), v, i);
  }

  // ---------- Tags split anywhere ----------

  /** `s` is the beginning of a tag, not all of it. */
  ghost predicate Started(s: string) {
    (s <= "<think>" && s != "<think>") || (s <= "</think>" && s != "</think>")
  }

  /** `n` characters of the text are these bits, and perhaps the start of a tag. */
  ghost predicate Splits(bits: seq<Bit>, n: nat, front: seq<Bit>, tail: string)
    requires n <= |Spelled(bits)|
  {
    && Plain(front) && Started(tail) && Spelled(bits)[..n] == Spelled(front) + tail && Said(front) <= Said(bits)
    && (n == |Spelled(bits)| ==> tail == "" && Said(front) == Said(bits))
  }

  lemma WordAlone(w: string)
    ensures Said([Word(w)]) == w && Spelled([Word(w)]) == w
  {
    var bits := [Word(w)];
    assert bits[1..] == [];
    assert w + "" == w;
  }

  lemma SplitsWithin(bits: seq<Bit>, n: nat) returns (front: seq<Bit>, tail: string)
    requires Plain(bits) && bits != [] && n < |Spell(bits[0])|
    ensures Splits(bits, n, front, tail)
  {
    var b, s := bits[0], Spell(bits[0]);
    assert b in bits && Spelled(bits)[..n] == s[..n];
    if b.Word? {
      front, tail := [Word(s[..n])], "";
      WordAlone(s[..n]);
    } else {
      front, tail := [], s[..n];
    }
  }

  lemma BitFirst(b: Bit, more: seq<Bit>)
    ensures Spelled([b] + more) == Spell(b) + Spelled(more)
    ensures Said([b] + more) == (if b.Word? then b.text else "") + Said(more)
  {
    assert ([b] + more)[1..] == more;
  }

  lemma PrefixAfter(x: string, y: string, z: string)
    requires y <= z
    ensures x + y <= x + z
  {
  }

  lemma TakenAfter(s: string, rest: string, n: nat, spelled: string, tail: string)
    requires |s| <= n <= |s + rest| && rest[..n - |s|] == spelled + tail
    ensures (s + rest)[..n] == s + spelled + tail
  {
    assert (s + rest)[..n] == s + rest[..n - |s|];
    assert s + (spelled + tail) == s + spelled + tail;
  }

  lemma SplitsAfter(bits: seq<Bit>, n: nat, more: seq<Bit>, tail: string)
    requires Plain(bits) && bits != [] && |Spell(bits[0])| <= n <= |Spelled(bits)|
    requires Splits(bits[1..], n - |Spell(bits[0])|, more, tail)
    ensures Splits(bits, n, [bits[0]] + more, tail)
  {
    var b := bits[0];
    assert b in bits;
    BitFirst(b, more);
    TakenAfter(Spell(b), Spelled(bits[1..]), n, Spelled(more), tail);
    PrefixAfter(if b.Word? then b.text else "", Said(more), Said(bits[1..]));
  }

  lemma {:induction false} BeginningSplits(bits: seq<Bit>, n: nat) returns (front: seq<Bit>, tail: string)
    requires Plain(bits) && n <= |Spelled(bits)|
    ensures Splits(bits, n, front, tail)
  {
    if bits == [] {
      front, tail := [], "";
    } else if n < |Spell(bits[0])| {
      front, tail := SplitsWithin(bits, n);
    } else {
      assert forall x | x in bits[1..] :: x in bits;
      var more;
      more, tail := BeginningSplits(bits[1..], n - |Spell(bits[0])|);
      SplitsAfter(bits, n, more, tail);
      front := [bits[0]] + more;
    }
  }

  /** No secret holds a character that could be taken for `<`, or stands in a tag. */
  ghost predicate PlainSecrets(g: Guard) {
    && (forall v, c | v in g.values && c in v :: g.alphabet.fold(c) != g.alphabet.fold('<'))
    && SecretFree(g, "<think>") && SecretFree(g, "</think>")
  }

  lemma TailIsFree(g: Guard, said: string, tail: string)
    requires PlainSecrets(g) && SecretFree(g, said) && Started(tail)
    ensures SecretFree(g, said + tail)
  {
    var s := said + tail;
    forall v, i: nat | v in g.values && v != "" && i <= |s| ensures !Spelt(g.alphabet, v, s, i) {
      if Spelt(g.alphabet, v, s, i) {
        if i + |v| <= |said| {
          assert s[0..|said|] == said;
          SpeltInPrefix(g.alphabet, v, said, tail, i);
        } else if i < |said| {
          NotAcross(g, v, said, tail, i);
        } else {
          var tag := if tail <= "<think>" then "<think>" else "</think>";
          SpeltInTail(g.alphabet, v, said, tail, tag, i);
        }
      }
    }
  }

  lemma NotAcross(g: Guard, v: string, said: string, tail: string, i: nat)
    requires PlainSecrets(g) && v in g.values && i < |said| < i + |v| && Started(tail)
    ensures !Spelt(g.alphabet, v, said + tail, i)
  {
    var k := |said| - i;
    assert v[k] in v && (tail != "" ==> (said + tail)[i + k] == '<');
  }

  lemma SpeltInPrefix(a: Alphabet, v: string, x: string, y: string, i: nat)
    requires Spelt(a, v, x + y, i) && i + |v| <= |x|
    ensures Spelt(a, v, x, i)
  {
    forall k | 0 <= k < |v| ensures a.fold(x[i + k]) == a.fold(v[k]) {
      assert (x + y)[i + k] == x[i + k];
    }
  }

  lemma SpeltInTail(a: Alphabet, v: string, x: string, tail: string, tag: string, i: nat)
    requires Spelt(a, v, x + tail, i) && |x| <= i && tail <= tag
    ensures Spelt(a, v, tag, i - |x|)
  {
    forall k | 0 <= k < |v| ensures a.fold(tag[i - |x| + k]) == a.fold(v[k]) {
      assert (x + tail)[i + k] == tail[i - |x| + k];
    }
  }

  /** After every `feed`: pieces and buffer are what was said so far and the start of a tag, which is
      still held. */
  ghost predicate Holding(p: Progress, front: seq<Bit>, tail: string) {
    NoAngle(Join(p.pieces)) && Join(p.pieces) + p.held == Said(front) + tail && |Join(p.pieces)| <= |Said(front)|
  }

  /** The buffer is what was said and not yet sent, and then the start of the tag. */
  lemma HeldIs(p: Progress, front: seq<Bit>, tail: string) returns (h: string)
    requires Holding(p, front, tail) && Plain(front)
    ensures p.held == h + tail && Join(p.pieces) + h == Said(front) && NoAngle(h)
  {
    var sent, said := Join(p.pieces), Said(front);
    h := said[|sent|..];
    assert (sent + p.held)[|sent|..] == p.held;
    assert (said + tail)[|sent|..] == h + tail;
    assert (sent + p.held)[..|sent|] == sent && (said + tail)[..|sent|] == said[..|sent|];
    SaidHasNoAngle(front);
    assert forall c | c in h :: c in said;
  }

  lemma NextStripped(p: Progress, front: seq<Bit>, tail: string, h: string, more: string, next: seq<Bit>,
                     nextTail: string)
    requires Plain(front) && Plain(next) && NoAngle(h) && p.held == h + tail && Join(p.pieces) + h == Said(front)
    requires Started(nextTail) && Spelled(front) + tail + more == Spelled(next) + nextTail
    ensures Join(p.pieces) + WithoutThink(p.held + more, 0) == Said(next) + nextTail
  {
    var x := WithoutThink(tail + more, 0);
    Regroup(h, tail, more);
    WordStrips(h, tail + more);
    Regroup(Spelled(front), tail, more);
    BitsStrip(front, tail + more);
    BitsStrip(next, nextTail);
    StartedStays(nextTail);
    Regroup(Join(p.pieces), h, x);
  }

  lemma StrippedIsFree(g: Guard, sent: string, s: string, bits: seq<Bit>, next: seq<Bit>, nextTail: string)
    requires PlainSecrets(g) && SecretFree(g, Said(bits)) && Said(next) <= Said(bits) && Started(nextTail)
    requires sent + s == Said(next) + nextTail
    ensures SecretFree(g, s)
  {
    SecretFreePart(g, Said(bits), 0, |Said(next)|);
    assert Said(bits)[0..|Said(next)|] == Said(next);
    TailIsFree(g, Said(next), nextTail);
    SecretFreePart(g, sent + s, |sent|, |sent + s|);
    assert (sent + s)[|sent|..|sent + s|] == s;
  }

  /** The buffer with one more fragment, cleaned: what was said and not yet sent, and the next start. */
  lemma NextCleaned(g: Guard, p: Progress, front: seq<Bit>, tail: string, more: string, bits: seq<Bit>,
                    next: seq<Bit>, nextTail: string)
    requires PlainSecrets(g) && SecretFree(g, Said(bits)) && Plain(front) && Plain(next) && Said(next) <= Said(bits)
    requires Holding(p, front, tail) && Started(nextTail)
    requires Spelled(front) + tail + more == Spelled(next) + nextTail
    ensures Join(p.pieces) + Clean(g, p.held + more, false) == Said(next) + nextTail
  {
    var h := HeldIs(p, front, tail);
    NextStripped(p, front, tail, h, more, next, nextTail);
    StrippedIsFree(g, Join(p.pieces), WithoutThink(p.held + more, 0), bits, next, nextTail);
    NothingCleaned(g, p.held + more, false);
  }

  lemma StartedStays(tail: string)
    requires Started(tail)
    ensures WithoutThink(tail, 0) == tail
  {
    if |tail| == 7 { assert tail[0..7] == tail && tail[1] == '/'; }
    forall i: nat | i < |tail| ensures !StartsAt(tail, i, "<think>") && !StartsAt(tail, i, "</think>") {
      if i > 0 {
        assert tail[i] != '<';
        FirstCharacter(tail, i, "<think>");
        FirstCharacter(tail, i, "</think>");
      }
    }
    NothingStripped(tail, 0);
    assert tail[0..] == tail;
  }

  /** What is sent holds no `<`, so it ends before the tag begins. */
  lemma NotPast(sent: string, s: string, said: string, tail: string)
    requires sent + s == said + tail && NoAngle(sent) && (tail != "" ==> tail[0] == '<')
    ensures |sent| <= |said|
  {
    assert forall k | 0 <= k < |sent| :: (sent + s)[k] == sent[k] && sent[k] in sent;
    assert tail != "" ==> (said + tail)[|said|] == '<';
    assert |sent| + |s| == |said| + |tail|;
  }

  lemma CutHolds(p: Progress, s: string, cut: nat, hold: nat, front: seq<Bit>, tail: string)
    requires NoAngle(Join(p.pieces)) && Join(p.pieces) + s == Said(front) + tail && Started(tail) && Plain(front)
    requires LONGEST_TAG <= hold && cut <= |s| && (cut > 0 ==> cut + hold <= |s|)
    ensures Holding(Progress(p.pieces + [s[..cut]], s[cut..]), front, tail)
  {
    var sent, said := Join(p.pieces), Said(front);
    JoinOne(p.pieces, s[..cut]);
    assert sent + s[..cut] + s[cut..] == sent + s;
    SaidHasNoAngle(front);
    if cut == 0 {
      assert sent + s[..0] == sent;
      NotPast(sent, s, said, tail);
    } else {
      var j := sent + s[..cut];
      forall c | c in j ensures c in said {
        var k :| 0 <= k < |j| && j[k] == c;
        assert (sent + s)[k] == c && k < |said|;
      }
    }
  }

  /** One more fragment. */
  lemma NextHeld(g: Guard, before: Progress, was: seq<Bit>, wasTail: string, more: string, bits: seq<Bit>,
                 front: seq<Bit>, tail: string)
    requires g.Valid() && PlainSecrets(g) && SecretFree(g, Said(bits)) && Plain(was) && Plain(front)
    requires Holding(before, was, wasTail) && Said(front) <= Said(bits) && Started(tail)
    requires Spelled(was) + wasTail + more == Spelled(front) + tail
    ensures
      var step := FeedStep(g, before.held, more);
      Holding(Progress(before.pieces + [step.0], step.1), front, tail)
  {
    NextCleaned(g, before, was, wasTail, more, bits, front, tail);
    var s := Clean(g, before.held + more, false);
    CutHolds(before, s, CutOf(s, g.hold), g.hold, front, tail);
  }

  lemma Beginning(x: string, text: string)
    requires x <= text
    ensures text[..|x|] == x
  {
  }

  lemma {:induction false} TagsAreHeld(g: Guard, fragments: seq<string>, bits: seq<Bit>)
    returns (front: seq<Bit>, tail: string)
    requires g.Valid() && PlainSecrets(g) && Plain(bits) && SecretFree(g, Said(bits))
    requires Join(fragments) <= Spelled(bits)
    ensures Splits(bits, |Join(fragments)|, front, tail) && Holding(Run(g, fragments), front, tail)
  {
    front, tail := BeginningSplits(bits, |Join(fragments)|);
    Beginning(Join(fragments), Spelled(bits));
    if fragments == [] {
      SplitsNothing(front, tail);
    } else {
      var n := |fragments| - 1;
      LastFragment(fragments, Spelled(bits));
      var was, wasTail := TagsAreHeld(g, fragments[..n], bits);
      Beginning(Join(fragments[..n]), Spelled(bits));
      NextHeld(g, Run(g, fragments[..n]), was, wasTail, fragments[n], bits, front, tail);
    }
  }

  lemma {:induction false} SplitsNothing(front: seq<Bit>, tail: string)
    requires Spelled(front) + tail == ""
    ensures Said(front) + tail == ""
  {
    if front != [] {
      assert |Spelled(front)| == |Spell(front[0])| + |Spelled(front[1..])|;
      SplitsNothing(front[1..], "");
    }
  }

  /** However the fragments are cut, through a tag too: of a text that says no secret, exactly the think
      tags are taken out. */
  lemma TagsTakenOut(g: Guard, fragments: seq<string>, bits: seq<Bit>)
    requires g.Valid() && PlainSecrets(g) && Plain(bits) && SecretFree(g, Said(bits))
    requires Join(fragments) == Spelled(bits)
    ensures Sent(g, Flushed(g, fragments)) == Said(bits)
  {
    var front, tail := TagsAreHeld(g, fragments, bits);
    var r := Run(g, fragments);
    var h := HeldIs(r, front, tail);
    assert r.held == h;
    WordStrips(h, "");
    assert h + "" == h;
    SecretFreePart(g, Said(bits), |Join(r.pieces)|, |Said(bits)|);
    assert (Join(r.pieces) + h)[|Join(r.pieces)|..] == h;
    NothingCleaned(g, r.held, true);
    JoinOne(r.pieces, h);
    SaidHasNoAngle(bits);
    SentIsJoined(g, Flushed(g, fragments));
  }
}
