/** Concatenation, occurrence and stripping, as the text functions use them. */
module Sequences {

  /** `"".join(parts)`. */
  function Join<T>(parts: seq<seq<T>>): seq<T> {
    if parts == [] then [] else Join(parts[..|parts| - 1]) + parts[|parts| - 1]
  }

  lemma JoinOne<T>(parts: seq<seq<T>>, last: seq<T>)
    ensures Join(parts + [last]) == Join(parts) + last
  {
    assert (parts + [last])[..|parts|] == parts;
  }

  /** `p` stands in `s` at `i`. */
  predicate StartsAt(s: string, i: nat, p: string) {
    i + |p| <= |s| && s[i..i + |p|] == p
  }

  /** `str.lstrip`, `str.rstrip`; `space` is what they strip. */
  function LeftStrip<T>(space: T -> bool, s: seq<T>): (r: seq<T>)
    ensures |r| <= |s| && (r != [] ==> !space(r[0]))
    ensures s != [] && !space(s[0]) ==> r == s
  {
    if s != [] && space(s[0]) then LeftStrip(space, s[1..]) else s
  }

  function RightStrip<T>(space: T -> bool, s: seq<T>): (r: seq<T>)
    ensures r <= s && (s != [] && !space(s[0]) ==> r != [])
  {
    if s != [] && space(s[|s| - 1]) then RightStrip(space, s[..|s| - 1]) else s
  }

  function Strip<T>(space: T -> bool, s: seq<T>): (r: seq<T>)
    ensures |r| <= |s| && (r != [] ==> !space(r[0]))
    ensures s != [] && !space(s[0]) ==> r != [] && r[0] == s[0]
  {
    RightStrip(space, LeftStrip(space, s))
  }

  lemma {:induction false} LeftTaken<T>(space: T -> bool, s: seq<T>) returns (a: seq<T>)
    ensures s == a + LeftStrip(space, s) && forall i | 0 <= i < |a| :: space(a[i])
  {
    if s != [] && space(s[0]) {
      a := LeftTaken(space, s[1..]);
      a := [s[0]] + a;
      assert s == [s[0]] + s[1..];
    } else {
      a := [];
    }
  }

  lemma {:induction false} RightTaken<T>(space: T -> bool, s: seq<T>) returns (b: seq<T>)
    ensures s == RightStrip(space, s) + b && forall i | 0 <= i < |b| :: space(b[i])
    ensures RightStrip(space, s) != [] ==> !space(RightStrip(space, s)[|RightStrip(space, s)| - 1])
  {
    if s != [] && space(s[|s| - 1]) {
      b := RightTaken(space, s[..|s| - 1]);
      b := b + [s[|s| - 1]];
      assert s == s[..|s| - 1] + [s[|s| - 1]];
    } else {
      b := [];
    }
  }

  /** Stripping takes blanks off both ends and nothing else, and leaves none there. */
  lemma StripTakesEnds<T>(space: T -> bool, s: seq<T>) returns (a: seq<T>, b: seq<T>)
    ensures s == a + Strip(space, s) + b
    ensures (forall i | 0 <= i < |a| :: space(a[i])) && forall i | 0 <= i < |b| :: space(b[i])
    ensures Strip(space, s) != [] ==>
      !space(Strip(space, s)[0]) && !space(Strip(space, s)[|Strip(space, s)| - 1])
  {
    a := LeftTaken(space, s);
    b := RightTaken(space, LeftStrip(space, s));
    assert a + (Strip(space, s) + b) == a + Strip(space, s) + b;
  }
}
