/** No secret leaves the redactor as a whole word, however the text is cut into fragments.

    Every character that leaves, or is still held, is traced back to the text fed: it is either the
    text's own character (`Raw`), or part of a replacement that stands for a stretch of it (`Mask`).
    A secret is emitted verbatim only if every one of its characters is still `Raw`. */
module RedactSecrets {
  import opened Redact
  import RedactProofs
  import opened Sequences

  datatype Cell = Raw(ch: char, at: nat) | Mask(ch: char, from: nat, to: nat)
  {
    function Lo(): nat { if Raw? then at else from }
    function Hi(): nat { if Raw? then at + 1 else to }
  }

  ghost function Chars(cs: seq<Cell>): (s: string)
    ensures |s| == |cs| && forall k | 0 <= k < |cs| :: s[k] == cs[k].ch
  {
    seq(|cs|, k requires 0 <= k < |cs| => cs[k].ch)
  }

  ghost function Raws(text: string, from: nat): (cs: seq<Cell>)
    ensures |cs| == |text| && forall k | 0 <= k < |cs| :: cs[k] == Raw(text[k], from + k)
  {
    seq(|text|, k requires 0 <= k < |text| => Raw(text[k], from + k))
  }

  /** `[redacted]`, standing for the text from `lo` to `hi`. */
  ghost function Block(lo: nat, hi: nat): (cs: seq<Cell>)
    ensures |cs| == |REDACTED| && forall k | 0 <= k < |cs| :: cs[k] == Mask(REDACTED[k], lo, hi)
  {
    seq(|REDACTED|, k requires 0 <= k < |REDACTED| => Mask(REDACTED[k], lo, hi))
  }

  /** `Substitute`, with the origin of every character. */
  ghost function Traced(cs: seq<Cell>, ns: seq<nat>, i: nat): seq<Cell>
    requires Within(ns, |cs|)
    decreases |cs| - i
  {
    if i >= |cs| then []
    else if ns[i] > 0 then Block(cs[i].Lo(), cs[i + ns[i] - 1].Hi()) + Traced(cs, ns, i + ns[i])
    else [cs[i]] + Traced(cs, ns, i + 1)
  }

  ghost function Cleaned(g: Guard, cs: seq<Cell>, closed: bool): seq<Cell> {
    Traced(cs, Matches(g, Chars(cs), closed), 0)
  }

  datatype Trace = Trace(out: seq<Cell>, held: seq<Cell>)

  ghost function FeedTrace(g: Guard, before: Trace, text: string, from: nat): Trace {
    var cs := Cleaned(g, before.held + Raws(text, from), false);
    var cut := CutOf(Chars(cs), g.hold);
    Trace(before.out + cs[..cut], cs[cut..])
  }

  ghost function TraceOf(g: Guard, fragments: seq<string>): Trace {
    if fragments == [] then Trace([], [])
    else
      var n := |fragments| - 1;
      FeedTrace(g, TraceOf(g, fragments[..n]), fragments[n], |Join(fragments[..n])|)
  }

  ghost function FlushTrace(g: Guard, fragments: seq<string>): seq<Cell> {
    TraceOf(g, fragments).out + Cleaned(g, TraceOf(g, fragments).held, true)
  }

  // ---------- The cells cover the text, in order ----------

  ghost predicate Link(x: Cell, y: Cell) {
    && x.Lo() <= y.Lo() <= x.Hi() <= y.Hi()
    && (x.Raw? || y.Raw? ==> x.Hi() == y.Lo())
    && (x.Mask? && y.Raw? ==> x.ch == ']')
  }

  ghost predicate Linked(cs: seq<Cell>, k: nat)
    requires 0 < k < |cs|
  {
    Link(cs[k - 1], cs[k])
  }

  ghost predicate Good(text: string, x: Cell) {
    && x.Lo() < x.Hi() <= |text|
    && (x.Raw? ==> x.ch == text[x.at])
    && (x.Mask? ==> x.ch in REDACTED)
  }

  ghost predicate Segment(text: string, cs: seq<Cell>) {
    && (forall k | 0 <= k < |cs| :: Good(text, cs[k]))
    && (forall k | 0 < k < |cs| :: Linked(cs, k))
  }

  /** `cs` spells `text` from its first character to its last, some stretches masked. */
  ghost predicate Covers(text: string, cs: seq<Cell>) {
    && Segment(text, cs)
    && (if cs == [] then text == "" else
          && cs[0].Lo() == 0 && cs[|cs| - 1].Hi() == |text|
          && (cs[|cs| - 1].Mask? ==> cs[|cs| - 1].ch == ']'))
  }

  /** The cells end with the text from `k` on, as far as its first character goes. */
  ghost predicate EndsRaw(text: string, cs: seq<Cell>, k: nat)
    requires k < |text|
  {
    |text| - k <= |cs| && cs[|cs| - (|text| - k)] == Raw(text[k], k)
  }

  ghost predicate AllRaw(text: string, cs: seq<Cell>, i: nat, j: nat)
    requires j <= |text|
  {
    forall k: nat | i <= k < j :: Raw(text[k], k) in cs
  }

  lemma Neighbours(text: string, cs: seq<Cell>, p: nat, q: nat)
    requires Covers(text, cs) && p < |cs| && q < |cs|
    requires cs[p].Raw? && cs[q].Raw? && cs[q].at == cs[p].at + 1
    ensures q == p + 1
  {
    if p > q {
      SegmentMonotone(text, cs, q, p);
    } else if p + 1 < q {
      SegmentMonotone(text, cs, p, p + 1);
      SegmentMonotone(text, cs, p + 1, q);
    }
  }

  /** When the text from `i` on is all raw, it is what the cells end with. */
  lemma {:induction false} RawTail(text: string, cs: seq<Cell>, i: nat, k: nat)
    requires Covers(text, cs) && i <= k < |text| && AllRaw(text, cs, i, |text|)
    ensures EndsRaw(text, cs, k)
    decreases |text| - k
  {
    var p :| 0 <= p < |cs| && cs[p] == Raw(text[k], k);
    if k + 1 < |text| {
      RawTail(text, cs, i, k + 1);
      Neighbours(text, cs, p, |cs| - (|text| - k) + 1);
    } else if p + 1 < |cs| {
      SegmentMonotone(text, cs, p, p + 1);
    }
  }

  // ---------- Substitution keeps the cover ----------

  ghost predicate Joined(x: seq<Cell>, y: seq<Cell>) {
    x != [] && y != [] ==> Link(x[|x| - 1], y[0])
  }

  lemma SegmentOfTwo(text: string, x: seq<Cell>, y: seq<Cell>)
    ensures Segment(text, x + y) <==> Segment(text, x) && Segment(text, y) && Joined(x, y)
  {
    var z := x + y;
    if Segment(text, z) {
      forall k | 0 <= k < |x| ensures Good(text, x[k]) { assert x[k] == z[k]; }
      forall k | 0 <= k < |y| ensures Good(text, y[k]) { assert y[k] == z[|x| + k]; }
      forall k | 0 < k < |x| ensures Linked(x, k) { assert Linked(z, k); }
      forall k | 0 < k < |y| ensures Linked(y, k) { assert Linked(z, |x| + k); }
      if x != [] && y != [] { assert Linked(z, |x|); }
    }
    if Segment(text, x) && Segment(text, y) && Joined(x, y) {
      forall k | 0 < k < |z| ensures Linked(z, k) {
        if k < |x| { assert Linked(x, k); } else if k > |x| { assert Linked(y, k - |x|); }
      }
    }
  }

  /** `b` can stand where `a` stood, seen from the left. */
  ghost predicate Starts(a: Cell, b: Cell) {
    b == a || (b.Mask? && b.Lo() == a.Lo() && b.Hi() >= a.Hi())
  }

  /** `b` can stand where `a` stood, seen from the right. */
  ghost predicate Finishes(a: Cell, b: Cell) {
    b == a || (b.Mask? && b.ch == ']' && b.Hi() == a.Hi() && b.Lo() <= a.Lo())
  }

  /** `t` can stand where the cells from `i` on stood. */
  ghost predicate Replaces(text: string, cs: seq<Cell>, i: nat, t: seq<Cell>)
    requires i <= |cs|
  {
    && Segment(text, t)
    && (i == |cs| <==> t == [])
    && (i < |cs| ==> Starts(cs[i], t[0]) && Finishes(cs[|cs| - 1], t[|t| - 1]))
  }

  lemma {:induction false} TracedReplaces(text: string, cs: seq<Cell>, ns: seq<nat>, i: nat)
    requires Within(ns, |cs|) && i <= |cs| && Segment(text, cs)
    ensures Replaces(text, cs, i, Traced(cs, ns, i))
    decreases |cs| - i
  {
    if i == |cs| {
      assert Traced(cs, ns, i) == [];
    } else {
      var next := i + Width(ns, i);
      TracedNext(cs, ns, i);
      TracedReplaces(text, cs, ns, next);
      NextReplaces(text, cs, ns, i, Traced(cs, ns, next), Traced(cs, ns, i));
    }
  }

  /** How many cells the step at `i` takes, and what it puts there. */
  ghost function Width(ns: seq<nat>, i: nat): nat
    requires i < |ns|
  {
    if ns[i] > 0 then ns[i] else 1
  }

  ghost function Put(cs: seq<Cell>, ns: seq<nat>, i: nat): seq<Cell>
    requires Within(ns, |cs|) && i < |cs|
  {
    if ns[i] > 0 then Block(cs[i].Lo(), cs[i + ns[i] - 1].Hi()) else [cs[i]]
  }

  lemma TracedNext(cs: seq<Cell>, ns: seq<nat>, i: nat)
    requires Within(ns, |cs|) && i < |cs|
    ensures i + Width(ns, i) <= |cs| && Traced(cs, ns, i) == Put(cs, ns, i) + Traced(cs, ns, i + Width(ns, i))
  {
  }

  lemma NextReplaces(text: string, cs: seq<Cell>, ns: seq<nat>, i: nat, t: seq<Cell>, whole: seq<Cell>)
    requires Within(ns, |cs|) && i < |cs| && i + Width(ns, i) <= |cs| && Segment(text, cs)
    requires Replaces(text, cs, i + Width(ns, i), t) && whole == Put(cs, ns, i) + t
    ensures Replaces(text, cs, i, whole)
  {
    PutReplaces(text, cs, ns, i, t);
  }

  lemma PutReplaces(text: string, cs: seq<Cell>, ns: seq<nat>, i: nat, t: seq<Cell>)
    requires Within(ns, |cs|) && i < |cs| && i + Width(ns, i) <= |cs| && Segment(text, cs)
    requires Replaces(text, cs, i + Width(ns, i), t)
    ensures Replaces(text, cs, i, Put(cs, ns, i) + t)
  {
    if ns[i] > 0 { BlockPlaced(text, cs, i, ns[i], t); } else { OneKept(text, cs, i, t); }
  }

  lemma BlockPlaced(text: string, cs: seq<Cell>, i: nat, n: nat, t: seq<Cell>)
    requires n > 0 && i + n <= |cs| && Segment(text, cs) && Replaces(text, cs, i + n, t)
    ensures Replaces(text, cs, i, Block(cs[i].Lo(), cs[i + n - 1].Hi()) + t)
  {
    SegmentMonotone(text, cs, i, i + n - 1);
    assert Good(text, cs[i]) && Good(text, cs[i + n - 1]);
    BlockIsSegment(text, cs[i], cs[i + n - 1]);
    OneMore(text, cs, i, n, Block(cs[i].Lo(), cs[i + n - 1].Hi()), t);
  }

  lemma OneKept(text: string, cs: seq<Cell>, i: nat, t: seq<Cell>)
    requires i < |cs| && Segment(text, cs) && Replaces(text, cs, i + 1, t)
    ensures Replaces(text, cs, i, [cs[i]] + t)
  {
    assert Segment(text, [cs[i]]);
    OneMore(text, cs, i, 1, [cs[i]], t);
  }

  lemma OneMore(text: string, cs: seq<Cell>, i: nat, n: nat, b: seq<Cell>, t: seq<Cell>)
    requires n > 0 && i + n <= |cs| && Segment(text, cs) && Replaces(text, cs, i + n, t)
    requires b != [] && Segment(text, b) && Starts(cs[i], b[0]) && Finishes(cs[i + n - 1], b[|b| - 1])
    ensures Replaces(text, cs, i, b + t)
  {
    if i + n < |cs| {
      assert Linked(cs, i + n);
      LinkKept(cs[i + n - 1], b[|b| - 1], cs[i + n], t[0]);
    }
    SegmentOfTwo(text, b, t);
    Ends(b, t);
  }

  lemma Ends<T>(b: seq<T>, t: seq<T>)
    requires b != []
    ensures (b + t)[0] == b[0]
    ensures (b + t)[|b + t| - 1] == if t == [] then b[|b| - 1] else t[|t| - 1]
  {
  }

  lemma LinkKept(a: Cell, a': Cell, y: Cell, y': Cell)
    requires Link(a, y) && Finishes(a, a') && Starts(y, y')
    ensures Link(a', y')
  {
  }

  lemma {:induction false} SegmentMonotone(text: string, cs: seq<Cell>, p: nat, q: nat)
    requires Segment(text, cs) && p <= q < |cs|
    ensures cs[p].Lo() <= cs[q].Lo() && cs[p].Hi() <= cs[q].Hi()
    ensures p < q && (cs[p].Raw? || cs[q].Raw?) ==> cs[p].Hi() <= cs[q].Lo()
  {
    if p < q {
      SegmentMonotone(text, cs, p, q - 1);
      assert Linked(cs, q);
    }
  }

  lemma BlockIsSegment(text: string, first: Cell, last: Cell)
    requires Good(text, first) && Good(text, last) && first.Lo() <= last.Lo() && first.Hi() <= last.Hi()
    ensures
      var b := Block(first.Lo(), last.Hi());
      Segment(text, b) && Starts(first, b[0]) && Finishes(last, b[|b| - 1])
  {
    var b := Block(first.Lo(), last.Hi());
    forall k | 0 <= k < |b| ensures Good(text, b[k]) { assert REDACTED[k] in REDACTED; }
  }

  lemma CleanedCovers(g: Guard, text: string, out: seq<Cell>, cs: seq<Cell>, closed: bool)
    requires Covers(text, out + cs)
    ensures Covers(text, out + Cleaned(g, cs, closed))
  {
    SegmentOfTwo(text, out, cs);
    TracedReplaces(text, cs, Matches(g, Chars(cs), closed), 0);
    ReplacedCovers(text, out, cs, Cleaned(g, cs, closed));
  }

  lemma ReplacedCovers(text: string, out: seq<Cell>, cs: seq<Cell>, t: seq<Cell>)
    requires Covers(text, out + cs) && Segment(text, cs) && Segment(text, out) && Replaces(text, cs, 0, t)
    ensures Covers(text, out + t)
  {
    SegmentOfTwo(text, out, cs);
    SegmentOfTwo(text, out, t);
    if cs == [] {
      assert out + t == out + cs;
    } else {
      LastOfTwo(out, cs);
      LastOfTwo(out, t);
    }
  }

  lemma LastOfTwo(x: seq<Cell>, y: seq<Cell>)
    requires y != []
    ensures (x + y)[|x + y| - 1] == y[|y| - 1]
    ensures (x + y)[0] == if x == [] then y[0] else x[0]
  {
  }

  lemma CoversMore(text: string, more: string, cs: seq<Cell>)
    requires Covers(text, cs)
    ensures Covers(text + more, cs + Raws(more, |text|))
  {
    var rs := Raws(more, |text|);
    assert Segment(text + more, cs) by {
      forall k | 0 <= k < |cs| ensures Good(text + more, cs[k]) { assert Good(text, cs[k]); }
    }
    SegmentOfTwo(text + more, cs, rs);
  }

  // ---------- Every occurrence loses its first character ----------

  lemma {:induction false} TracedFrom(cs: seq<Cell>, ns: seq<nat>, i: nat, x: Cell)
    requires Within(ns, |cs|) && i <= |cs| && x.Raw? && x in Traced(cs, ns, i)
    ensures x in cs[i..]
    decreases |cs| - i
  {
    if i < |cs| {
      if ns[i] > 0 {
        TracedFrom(cs, ns, i + ns[i], x);
      } else if x != cs[i] {
        TracedFrom(cs, ns, i + 1, x);
      }
    }
  }

  /** A match at `a` is overlapped by a replacement, which takes its first cell. */
  lemma {:induction false} FirstCellGone(cs: seq<Cell>, ns: seq<nat>, i: nat, a: nat)
    requires Within(ns, |cs|) && i <= a < |cs| && ns[a] > 0
    requires cs[a].Raw? && forall k | 0 <= k < |cs| && k != a :: cs[k] != cs[a]
    ensures cs[a] !in Traced(cs, ns, i)
    decreases |cs| - i
  {
    if ns[i] == 0 {
      FirstCellGone(cs, ns, i + 1, a);
    } else if i + ns[i] <= a {
      FirstCellGone(cs, ns, i + ns[i], a);
    } else if cs[a] in Traced(cs, ns, i + ns[i]) {
      TracedFrom(cs, ns, i + ns[i], cs[a]);
    }
  }

  lemma RawIsUnique(text: string, cs: seq<Cell>, a: nat)
    requires Covers(text, cs) && a < |cs| && cs[a].Raw?
    ensures forall k | 0 <= k < |cs| && k != a :: cs[k] != cs[a]
  {
    forall k | 0 <= k < |cs| && k != a ensures cs[k] != cs[a] {
      if k < a { SegmentMonotone(text, cs, k, a); } else { SegmentMonotone(text, cs, a, k); }
    }
  }

  /** When an occurrence is still raw to the end of the text, cleaning masks its first character. */
  lemma OccurrenceBroken(g: Guard, text: string, out: seq<Cell>, cs: seq<Cell>, v: string, i: nat, closed: bool)
    requires g.Valid() && Covers(text, out + cs)
    requires v in g.values && Fits(g.alphabet, v, text, i, closed) && i < |text|
    requires AllRaw(text, out + cs, i, |text|) && Raw(text[i], i) !in out
    ensures Raw(text[i], i) !in out + Cleaned(g, cs, closed)
  {
    var a := |cs| - (|text| - i);
    assert i < |text|;
    TailInCells(text, out, cs, i);
    FitsInCells(g.alphabet, text, out, cs, v, i, closed);
    assert EndsRaw(text, cs, i) && (out + cs)[|out| + a] == cs[a];
    RawIsUnique(text, out + cs, |out| + a);
    NotElsewhere(out, cs, a);
    var ns := Matches(g, Chars(cs), closed);
    assert ns[a] == FirstFit(g.alphabet, g.values, Chars(cs), a, closed);
    FirstCellGone(cs, ns, 0, a);
  }

  lemma NotElsewhere(out: seq<Cell>, cs: seq<Cell>, a: nat)
    requires a < |cs|
    requires forall k | 0 <= k < |out + cs| && k != |out| + a :: (out + cs)[k] != (out + cs)[|out| + a]
    ensures cs[a] !in out && forall k | 0 <= k < |cs| && k != a :: cs[k] != cs[a]
  {
    assert forall k | 0 <= k < |cs| :: (out + cs)[|out| + k] == cs[k];
    assert forall k | 0 <= k < |out| :: (out + cs)[k] == out[k];
  }

  lemma TailInCells(text: string, out: seq<Cell>, cs: seq<Cell>, i: nat)
    requires Covers(text, out + cs) && i < |text| && AllRaw(text, out + cs, i, |text|)
    requires Raw(text[i], i) !in out
    ensures |text| - i <= |cs|
    ensures forall k: nat | i <= k < |text| :: EndsRaw(text, cs, k)
  {
    RawTail(text, out + cs, i, i);
    assert (out + cs)[|out + cs| - (|text| - i)] !in out;
    forall k: nat | i <= k < |text| ensures EndsRaw(text, cs, k) {
      RawTail(text, out + cs, i, k);
      RawTail(text, out + cs, i, i);
    }
    RawTail(text, out + cs, i, i);
  }

  lemma FitsInCells(a: Alphabet, text: string, out: seq<Cell>, cs: seq<Cell>, v: string, i: nat, closed: bool)
    requires !a.word(']') && Covers(text, out + cs) && Fits(a, v, text, i, closed) && |v| > 0
    requires |text| - i <= |cs|
    requires forall k: nat | i <= k < |text| :: EndsRaw(text, cs, k)
    ensures Fits(a, v, Chars(cs), |cs| - (|text| - i), closed)
  {
    var p, s := |cs| - (|text| - i), Chars(cs);
    assert EndsRaw(text, cs, i);
    forall k | 0 <= k < |v| ensures a.fold(s[p + k]) == a.fold(v[k]) {
      assert EndsRaw(text, cs, i + k) && a.fold(text[i + k]) == a.fold(v[k]);
    }
    if i + |v| < |text| { assert EndsRaw(text, cs, i + |v|); }
    if p > 0 {
      var all := out + cs;
      assert all[|out| + p - 1] == cs[p - 1] && all[|out| + p] == cs[p];
      assert Linked(all, |out| + p) && Good(text, all[|out| + p - 1]);
      assert EndsRaw(text, cs, i);
    }
  }

  // ---------- Runs ----------

  lemma {:induction false} TracedChars(cs: seq<Cell>, ns: seq<nat>, i: nat)
    requires Within(ns, |cs|) && i <= |cs|
    ensures Chars(Traced(cs, ns, i)) == Substitute(Chars(cs), ns, i)
    decreases |cs| - i
  {
    if i == |cs| {
    } else if ns[i] > 0 {
      TracedChars(cs, ns, i + ns[i]);
      var b := Block(cs[i].Lo(), cs[i + ns[i] - 1].Hi());
      BlockReads(cs[i].Lo(), cs[i + ns[i] - 1].Hi());
      CharsOfTwo(b, Traced(cs, ns, i + ns[i]));
    } else {
      TracedChars(cs, ns, i + 1);
      CharsOfTwo([cs[i]], Traced(cs, ns, i + 1));
      CharsOfOne(cs[i]);
    }
  }

  lemma BlockReads(lo: nat, hi: nat)
    ensures Chars(Block(lo, hi)) == REDACTED
  {
  }

  lemma CharsOfOne(c: Cell)
    ensures Chars([c]) == [c.ch]
  {
  }

  lemma CharsOfTwo(x: seq<Cell>, y: seq<Cell>)
    ensures Chars(x + y) == Chars(x) + Chars(y)
  {
  }

  lemma {:induction false} RawsFollow(text: string, cs: seq<Cell>, i: nat, n: nat)
    requires Segment(text, cs) && i + n < |cs| && forall k | i <= k <= i + n :: cs[k].Raw?
    ensures cs[i + n].at == cs[i].at + n
  {
    if n > 0 {
      RawsFollow(text, cs, i, n - 1);
      assert Linked(cs, i + n);
    }
  }

  /** Raw cells that spell `p` are where the text spells it. */
  lemma RawsSpell(text: string, cs: seq<Cell>, i: nat, p: string)
    requires Segment(text, cs) && p != "" && StartsAt(Chars(cs), i, p)
    requires forall k | i <= k < i + |p| :: cs[k].Raw?
    ensures cs[i].at < |text| && StartsAt(text, cs[i].at, p)
  {
    var at := cs[i].at;
    forall k | 0 <= k < |p| ensures at + k < |text| && text[at + k] == p[k] {
      RawsFollow(text, cs, i, k);
      assert Good(text, cs[i + k]) && Chars(cs)[i..i + |p|][k] == p[k];
    }
    RawsFollow(text, cs, i, |p| - 1);
    assert Good(text, cs[i + |p| - 1]);
    assert text[at..at + |p|] == p;
  }

  /** No replacement supplies a character of a think tag. */
  lemma TagIsRaw(text: string, cs: seq<Cell>, i: nat, p: string, k: nat)
    requires Segment(text, cs) && (p == "<think>" || p == "</think>") && StartsAt(Chars(cs), i, p) && k < |p|
    ensures cs[i + k].Raw?
  {
    var s := Chars(cs);
    assert s[i..i + |p|][k] == p[k];
    assert Good(text, cs[i + k]);
    if p[k] == 't' {
      assert p[k + 1] == 'h' && s[i..i + |p|][k + 1] == p[k + 1];
      assert Good(text, cs[i + k + 1]) && Linked(cs, i + k + 1);
    }
  }

  lemma ThinkFreeInCells(text: string, cs: seq<Cell>)
    requires Segment(text, cs) && RedactProofs.ThinkFree(text)
    ensures RedactProofs.ThinkFree(Chars(cs))
  {
    forall i: nat, p | i < |cs| && (p == "<think>" || p == "</think>") ensures !StartsAt(Chars(cs), i, p) {
      if StartsAt(Chars(cs), i, p) {
        forall k | i <= k < i + |p| ensures cs[k].Raw? { TagIsRaw(text, cs, i, p, k - i); }
        RawsSpell(text, cs, i, p);
      }
    }
  }

  lemma NoAngleInCells(text: string, cs: seq<Cell>)
    requires Segment(text, cs) && RedactProofs.NoAngle(text)
    ensures RedactProofs.NoAngle(Chars(cs))
  {
    forall k | 0 <= k < |cs| ensures Chars(cs)[k] != '<' {
      assert Good(text, cs[k]);
    }
  }

  /** Cleaning text without think tags is the traced substitution. */
  lemma CleanIsTraced(g: Guard, text: string, cs: seq<Cell>, closed: bool)
    requires Segment(text, cs) && RedactProofs.ThinkFree(text)
    ensures Chars(Cleaned(g, cs, closed)) == Clean(g, Chars(cs), closed)
  {
    ThinkFreeInCells(text, cs);
    RedactProofs.NothingStripped(Chars(cs), 0);
    assert Chars(cs)[0..] == Chars(cs);
    TracedChars(cs, Matches(g, Chars(cs), closed), 0);
  }

  /** Text that is raw to its end is sent only once it is longer than the hold. */
  ghost predicate KeptBack(g: Guard, text: string, out: seq<Cell>, held: seq<Cell>) {
    forall k: nat | k < |text| && Raw(text[k], k) in out && AllRaw(text, out + held, k, |text|) :: g.hold < |text| - k
  }

  /** What holds of the cells after every `feed`. */
  ghost predicate Inv(g: Guard, text: string, tr: Trace) {
    && Covers(text, tr.out + tr.held)
    && KeptBack(g, text, tr.out, tr.held)
    && forall v, i: nat | v in g.values && Fits(g.alphabet, v, text, i, false) ::
         !AllRaw(text, tr.out + tr.held, i, i + |v|)
  }

  lemma NextSafe(g: Guard, text: string, more: string, tr: Trace, v: string, i: nat, closed: bool)
    requires g.Valid() && Inv(g, text, tr) && v in g.values && Fits(g.alphabet, v, text + more, i, closed)
    requires Covers(text + more, tr.out + (tr.held + Raws(more, |text|)))
    ensures !AllRaw(text + more, tr.out + Cleaned(g, tr.held + Raws(more, |text|), closed), i, i + |v|)
  {
    var cs, t := tr.held + Raws(more, |text|), text + more;
    if i + |v| < |text| {
      FitsShorter(g.alphabet, v, text, more, i, closed);
      var k: nat :| i <= k < i + |v| && Raw(text[k], k) !in tr.out + tr.held;
      assert Raw(t[k], k) !in tr.out + cs;
      GoneStaysGone(g, tr.out, cs, closed, Raw(t[k], k));
    } else if forall k: nat | i <= k < i + |v| :: Raw(t[k], k) in tr.out + cs {
      forall k: nat | i <= k < |t| ensures Raw(t[k], k) in tr.out + cs {
        if k >= i + |v| { assert cs[|tr.held| + k - |text|] == Raw(t[k], k); }
      }
      SentIsFar(g, text, more, tr, i);
      OccurrenceBroken(g, t, tr.out, cs, v, i, closed);
    } else {
      var k: nat :| i <= k < i + |v| && Raw(t[k], k) !in tr.out + cs;
      GoneStaysGone(g, tr.out, cs, closed, Raw(t[k], k));
    }
  }

  lemma SentIsFar(g: Guard, text: string, more: string, tr: Trace, i: nat)
    requires Inv(g, text, tr) && i < |text + more| && |text| - i <= g.hold
    requires AllRaw(text + more, tr.out + (tr.held + Raws(more, |text|)), i, |text + more|)
    ensures Raw((text + more)[i], i) !in tr.out
  {
    var all := tr.out + tr.held;
    assert all + Raws(more, |text|) == tr.out + (tr.held + Raws(more, |text|));
    if i < |text| {
      forall k: nat | i <= k < |text| ensures Raw(text[k], k) in all {
        assert Raw((text + more)[k], k) in all + Raws(more, |text|);
      }
      assert AllRaw(text, all, i, |text|);
    } else {
      forall p | 0 <= p < |tr.out| ensures tr.out[p] != Raw((text + more)[i], i) {
        assert all[p] == tr.out[p] && Good(text, all[p]);
      }
    }
  }

  lemma GoneStaysGone(g: Guard, out: seq<Cell>, cs: seq<Cell>, closed: bool, x: Cell)
    requires x.Raw? && x !in out + cs
    ensures x !in out + Cleaned(g, cs, closed)
  {
    if x in Cleaned(g, cs, closed) {
      TracedFrom(cs, Matches(g, Chars(cs), closed), 0, x);
    }
  }

  lemma FitsShorter(a: Alphabet, v: string, text: string, more: string, i: nat, closed: bool)
    requires Fits(a, v, text + more, i, closed) && i + |v| < |text|
    ensures Fits(a, v, text, i, false)
  {
    var t := text + more;
    forall k | 0 <= k < |v| ensures a.fold(text[i + k]) == a.fold(v[k]) {
      assert a.fold(t[i + k]) == a.fold(v[k]);
    }
  }

  lemma NextInv(g: Guard, text: string, more: string, tr: Trace)
    requires g.Valid() && Inv(g, text, tr)
    ensures Inv(g, text + more, FeedTrace(g, tr, more, |text|))
    ensures Covers(text + more, tr.out + (tr.held + Raws(more, |text|)))
  {
    var cs := tr.held + Raws(more, |text|);
    CoversMore(text, more, tr.out + tr.held);
    assert tr.out + tr.held + Raws(more, |text|) == tr.out + cs;
    CleanedCovers(g, text + more, tr.out, cs, false);
    CutInv(g, text, more, tr, Cleaned(g, cs, false), CutOf(Chars(Cleaned(g, cs, false)), g.hold));
  }

  lemma CutInv(g: Guard, text: string, more: string, tr: Trace, cleaned: seq<Cell>, cut: nat)
    requires g.Valid() && Inv(g, text, tr) && Covers(text + more, tr.out + (tr.held + Raws(more, |text|)))
    requires cleaned == Cleaned(g, tr.held + Raws(more, |text|), false)
    requires Covers(text + more, tr.out + cleaned)
    requires cut <= |cleaned| && (cut > 0 ==> cut + g.hold <= |cleaned|)
    ensures Inv(g, text + more, Trace(tr.out + cleaned[..cut], cleaned[cut..]))
  {
    NextSafeAll(g, text, more, tr, cleaned);
    NextKeptAll(g, text, more, tr, cleaned, cut);
    Recut(tr.out, cleaned, cut);
  }

  lemma Recut(out: seq<Cell>, cleaned: seq<Cell>, cut: nat)
    requires cut <= |cleaned|
    ensures out + cleaned[..cut] + cleaned[cut..] == out + cleaned
  {
  }

  lemma NextSafeAll(g: Guard, text: string, more: string, tr: Trace, cleaned: seq<Cell>)
    requires g.Valid() && Inv(g, text, tr) && Covers(text + more, tr.out + (tr.held + Raws(more, |text|)))
    requires cleaned == Cleaned(g, tr.held + Raws(more, |text|), false)
    ensures forall v, i: nat | v in g.values && Fits(g.alphabet, v, text + more, i, false) ::
      !AllRaw(text + more, tr.out + cleaned, i, i + |v|)
  {
    forall v, i: nat | v in g.values && Fits(g.alphabet, v, text + more, i, false)
      ensures !AllRaw(text + more, tr.out + cleaned, i, i + |v|)
    {
      NextSafe(g, text, more, tr, v, i, false);
    }
  }

  lemma NextKeptAll(g: Guard, text: string, more: string, tr: Trace, cleaned: seq<Cell>, cut: nat)
    requires Inv(g, text, tr) && cut <= |cleaned| && (cut > 0 ==> cut + g.hold <= |cleaned|)
    requires cleaned == Cleaned(g, tr.held + Raws(more, |text|), false)
    requires Covers(text + more, tr.out + cleaned)
    ensures KeptBack(g, text + more, tr.out + cleaned[..cut], cleaned[cut..])
  {
    assert tr.out + cleaned[..cut] + cleaned[cut..] == tr.out + cleaned;
    forall k: nat | k < |text + more| && Raw((text + more)[k], k) in tr.out + cleaned[..cut]
      && AllRaw(text + more, tr.out + cleaned, k, |text + more|)
      ensures g.hold < |text + more| - k
    {
      NextKeptBack(g, text, more, tr, cleaned, cut, k);
    }
  }

  lemma NextKeptBack(g: Guard, text: string, more: string, tr: Trace, cleaned: seq<Cell>, cut: nat, k: nat)
    requires Inv(g, text, tr) && cut <= |cleaned| && (cut > 0 ==> cut + g.hold <= |cleaned|)
    requires cleaned == Cleaned(g, tr.held + Raws(more, |text|), false)
    requires Covers(text + more, tr.out + cleaned)
    requires k < |text + more| && Raw((text + more)[k], k) in tr.out + cleaned[..cut]
    requires AllRaw(text + more, tr.out + cleaned, k, |text + more|)
    ensures g.hold < |text + more| - k
  {
    var t, cs := text + more, tr.held + Raws(more, |text|);
    RawTail(t, tr.out + cleaned, k, k);
    if Raw(t[k], k) in tr.out {
      forall x: nat | k <= x < |t| ensures Raw(t[x], x) in tr.out + cs {
        assert Raw(t[x], x) in tr.out + cleaned;
        if Raw(t[x], x) !in tr.out { TracedFrom(cs, Matches(g, Chars(cs), false), 0, Raw(t[x], x)); }
      }
      if |t| - k <= g.hold { SentIsFar(g, text, more, tr, k); }
    } else {
      var p :| 0 <= p < cut && cleaned[p] == Raw(t[k], k);
      var all := tr.out + cleaned;
      assert all[|tr.out| + p] == cleaned[p];
      RawIsUnique(t, all, |tr.out| + p);
    }
  }

  lemma {:induction false} RunInv(g: Guard, fragments: seq<string>)
    requires g.Valid() && RedactProofs.ThinkFree(Join(fragments))
    ensures Inv(g, Join(fragments), TraceOf(g, fragments))
    ensures Chars(TraceOf(g, fragments).out) == Join(Run(g, fragments).pieces)
    ensures Chars(TraceOf(g, fragments).held) == Run(g, fragments).held
  {
    if fragments != [] {
      var n := |fragments| - 1;
      var text, more := Join(fragments[..n]), fragments[n];
      RedactProofs.ThinkFreePart(Join(fragments), 0, |text|);
      assert Join(fragments)[0..|text|] == text;
      RunInv(g, fragments[..n]);
      var tr := TraceOf(g, fragments[..n]);
      NextInv(g, text, more, tr);
      var cs := tr.held + Raws(more, |text|);
      SegmentOfTwo(text + more, tr.out, cs);
      CleanIsTraced(g, text + more, cs, false);
      CharsOfTwo(tr.held, Raws(more, |text|));
      assert Chars(Raws(more, |text|)) == more;
      FeedChars(g, tr, Run(g, fragments[..n]), more, |text|);
    }
  }

  lemma FeedChars(g: Guard, tr: Trace, before: Progress, more: string, from: nat)
    requires Chars(tr.out) == Join(before.pieces) && Chars(tr.held) == before.held
    requires Chars(Cleaned(g, tr.held + Raws(more, from), false)) == Clean(g, before.held + more, false)
    ensures
      var next, step := FeedTrace(g, tr, more, from), FeedStep(g, before.held, more);
      Chars(next.out) == Join(before.pieces + [step.0]) && Chars(next.held) == step.1
  {
    var cs := Cleaned(g, tr.held + Raws(more, from), false);
    var cut := CutOf(Chars(cs), g.hold);
    assert Chars(cs[..cut]) == Chars(cs)[..cut] && Chars(cs[cut..]) == Chars(cs)[cut..];
    CharsOfTwo(tr.out, cs[..cut]);
    JoinOne(before.pieces, FeedStep(g, before.held, more).0);
  }

  // ---------- What is sent ----------

  /** Each piece is sent as it is or not at all. */
  ghost predicate Choice(pieces: seq<string>, sent: seq<string>) {
    |sent| == |pieces| && forall p | 0 <= p < |pieces| :: sent[p] == pieces[p] || sent[p] == ""
  }

  lemma {:induction false} SentIsChoice(g: Guard, pieces: seq<string>) returns (sent: seq<string>)
    ensures Choice(pieces, sent) && Sent(g, pieces) == Join(sent)
  {
    if pieces == [] {
      sent := [];
    } else {
      var last := Guarded(g.alphabet, pieces[|pieces| - 1]);
      var before := SentIsChoice(g, pieces[..|pieces| - 1]);
      JoinOne(before, last);
      sent := before + [last];
    }
  }

  /** While text without think tags streams: no secret that stands as a whole word in what was fed, the
      character after it included, is spelled by the pieces and what is held; a replacement overlaps it.
      What was sent is those pieces, a piece that quotes a prompt tag left out. */
  lemma NoSecretWhileStreaming(g: Guard, fragments: seq<string>, v: string, i: nat)
    requires g.Valid() && RedactProofs.ThinkFree(Join(fragments))
    requires v in g.values && Fits(g.alphabet, v, Join(fragments), i, false)
    ensures
      var cells, pieces := TraceOf(g, fragments).out + TraceOf(g, fragments).held, Run(g, fragments).pieces;
      && Chars(TraceOf(g, fragments).out) == Join(pieces)
      && Chars(TraceOf(g, fragments).held) == Run(g, fragments).held
      && Covers(Join(fragments), cells)
      && (exists k: nat :: i <= k < i + |v| && Raw(Join(fragments)[k], k) !in cells)
      && (exists sent :: Choice(pieces, sent) && Sent(g, pieces) == Join(sent))
      && (RedactProofs.NoAngle(Join(fragments)) ==> Sent(g, pieces) == Join(pieces))
  {
    RunInv(g, fragments);
    var tr, pieces := TraceOf(g, fragments), Run(g, fragments).pieces;
    SegmentOfTwo(Join(fragments), tr.out, tr.held);
    var _ := SentIsChoice(g, pieces);
    if RedactProofs.NoAngle(Join(fragments)) {
      NoAngleInCells(Join(fragments), tr.out);
      RedactProofs.SentIsJoined(g, pieces);
    }
  }

  /** After the flush: every whole word of such a text that is a secret, in any case, wherever the
      fragments were cut, has lost a character to a replacement in the pieces, of which what was sent is
      a choice. */
  lemma NoSecretSent(g: Guard, fragments: seq<string>, v: string, i: nat)
    requires g.Valid() && RedactProofs.ThinkFree(Join(fragments))
    requires v in g.values && Fits(g.alphabet, v, Join(fragments), i, true)
    ensures
      var cells, pieces := FlushTrace(g, fragments), Flushed(g, fragments);
      && Chars(cells) == Join(pieces)
      && Covers(Join(fragments), cells)
      && (exists k: nat :: i <= k < i + |v| && Raw(Join(fragments)[k], k) !in cells)
      && (exists sent :: Choice(pieces, sent) && Sent(g, pieces) == Join(sent))
      && (RedactProofs.NoAngle(Join(fragments)) ==> Sent(g, pieces) == Join(pieces))
  {
    var text, tr, r := Join(fragments), TraceOf(g, fragments), Run(g, fragments);
    RunInv(g, fragments);
    FlushCovers(g, text, tr);
    assert text + "" == text && tr.held + Raws("", |text|) == tr.held;
    NextSafe(g, text, "", tr, v, i, true);
    var cells := FlushTrace(g, fragments);
    CharsOfTwo(tr.out, Cleaned(g, tr.held, true));
    JoinOne(r.pieces, Clean(g, r.held, true));
    var _ := SentIsChoice(g, Flushed(g, fragments));
    if RedactProofs.NoAngle(text) {
      NoAngleInCells(text, cells);
      RedactProofs.SentIsJoined(g, Flushed(g, fragments));
    }
  }

  lemma FlushCovers(g: Guard, text: string, tr: Trace)
    requires Inv(g, text, tr) && RedactProofs.ThinkFree(text)
    ensures Covers(text, tr.out + Cleaned(g, tr.held, true))
    ensures Chars(Cleaned(g, tr.held, true)) == Clean(g, Chars(tr.held), true)
  {
    SegmentOfTwo(text, tr.out, tr.held);
    CleanIsTraced(g, text, tr.held, true);
    CleanedCovers(g, text, tr.out, tr.held, true);
  }
}
