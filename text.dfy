/**
  Literal text search and replacement with the semantics of Python's
  `str.replace`, `str.count`, `str.split` and `str.join`: occurrences are
  found leftmost first, scanning left to right, and never overlap.
 */
module Text {

  datatype Option<T> = None | Some(value: T)

  /** `pat` occurs in `s` starting at index `i`. */
  predicate OccursAt(s: string, pat: string, i: nat) {
    i + |pat| <= |s| && s[i..i + |pat|] == pat
  }

  predicate Contains(s: string, pat: string) {
    exists i: nat :: i <= |s| && OccursAt(s, pat, i)
  }

  /** Every start index of an occurrence of `pat`, overlapping ones included. */
  function Occurrences(s: string, pat: string): set<nat> {
    set i: nat | i <= |s| && OccursAt(s, pat, i)
  }

  /** Dropping the first character shifts every occurrence one place left. */
  lemma OccursAtTail(s: string, pat: string, i: nat)
    requires |s| > 0
    ensures OccursAt(s[1..], pat, i) <==> OccursAt(s, pat, i + 1)
  {
    if i + 1 + |pat| <= |s| {
      assert s[1..][i..i + |pat|] == s[i + 1..i + 1 + |pat|];
    }
  }

  /** The leftmost occurrence of `pat` in `s`, if any (Python's `str.find`). */
  function FirstIndex(s: string, pat: string): (r: Option<nat>)
    ensures r.Some? ==> OccursAt(s, pat, r.value)
    decreases |s|
  {
    if |s| < |pat| then
      None
    else if s[..|pat|] == pat then
      Some(0)
    else
      match FirstIndex(s[1..], pat)
      case None => None
      case Some(i) =>
        OccursAtTail(s, pat, i);
        Some(i + 1)
  }

  /** `FirstIndex` finds the leftmost occurrence, and finds none exactly when there is none. */
  lemma {:induction false} FirstIndexIsLeftmost(s: string, pat: string)
    ensures FirstIndex(s, pat).Some? ==>
      forall k: nat :: k < FirstIndex(s, pat).value ==> !OccursAt(s, pat, k)
    ensures FirstIndex(s, pat).None? <==> !Contains(s, pat)
    decreases |s|
  {
    if |s| < |pat| {
    } else if s[..|pat|] == pat {
      assert OccursAt(s, pat, 0);
    } else {
      assert !OccursAt(s, pat, 0);
      FirstIndexIsLeftmost(s[1..], pat);
      forall k: nat | 0 < k ensures OccursAt(s, pat, k) <==> OccursAt(s[1..], pat, k - 1) {
        OccursAtTail(s, pat, k - 1);
      }
      if FirstIndex(s[1..], pat).None? {
        assert forall k: nat :: k <= |s| ==> !OccursAt(s, pat, k) by {
          forall k: nat | k <= |s| ensures !OccursAt(s, pat, k) {
            if k > 0 { assert !OccursAt(s[1..], pat, k - 1); }
          }
        }
      }
    }
  }

  /**
    Python's `s.replace(pat, rep)`: every leftmost, non-overlapping
    occurrence of `pat` is replaced by `rep`, scanning left to right.
    An empty `pat` matches before every character and at the end.
   */
  function ReplaceAll(s: string, pat: string, rep: string): string
    decreases |s|
  {
    if |pat| == 0 then
      if |s| == 0 then rep else rep + [s[0]] + ReplaceAll(s[1..], pat, rep)
    else if |s| < |pat| then
      s
    else if s[..|pat|] == pat then
      rep + ReplaceAll(s[|pat|..], pat, rep)
    else
      [s[0]] + ReplaceAll(s[1..], pat, rep)
  }

  /**
    Python's `s.count(pat)`: the number of occurrences `ReplaceAll` replaces.
    They do not overlap, so together they fit in the text.
   */
  function Count(s: string, pat: string): (r: nat)
    ensures |pat| > 0 ==> r * |pat| <= |s|
    decreases |s|
  {
    if |pat| == 0 then
      |s| + 1
    else if |s| < |pat| then
      0
    else if s[..|pat|] == pat then
      MulSucc(Count(s[|pat|..], pat), |pat|);
      1 + Count(s[|pat|..], pat)
    else
      Count(s[1..], pat)
  }

  /** Python's `pat.join(pieces)`. */
  function Join(pieces: seq<string>, sep: string): string {
    if |pieces| == 0 then ""
    else if |pieces| == 1 then pieces[0]
    else pieces[0] + sep + Join(pieces[1..], sep)
  }

  /** Python's `s.split(pat)`: the text between successive leftmost occurrences. */
  function Split(s: string, pat: string): (pieces: seq<string>)
    requires |pat| > 0
    ensures |pieces| > 0
    decreases |s|
  {
    match FirstIndex(s, pat)
    case None => [s]
    case Some(i) => [s[..i]] + Split(s[i + |pat|..], pat)
  }

  /** Where `pat` does not start at the front, the first character is copied. */
  lemma ReplaceAllStep(s: string, pat: string, rep: string)
    requires |pat| > 0 && |s| > 0 && !OccursAt(s, pat, 0)
    ensures ReplaceAll(s, pat, rep) == [s[0]] + ReplaceAll(s[1..], pat, rep)
    ensures Count(s, pat) == Count(s[1..], pat)
  {
    if |s| < |pat| {
      assert s == [s[0]] + s[1..];
    }
  }

  /** Dropping a first character where `pat` does not start keeps the earlier indices free. */
  lemma TailAvoids(s: string, pat: string, i: nat)
    requires 0 < i <= |s|
    requires forall k: nat :: k < i ==> !OccursAt(s, pat, k)
    ensures forall k: nat :: k < i - 1 ==> !OccursAt(s[1..], pat, k)
  {
    forall k: nat | k < i - 1 ensures !OccursAt(s[1..], pat, k) {
      OccursAtTail(s, pat, k);
    }
  }

  lemma SkipOne(s: string, i: nat, r: string)
    requires 0 < i <= |s|
    ensures [s[0]] + (s[1..][..i - 1] + r) == s[..i] + r
  {
    assert [s[0]] + s[1..][..i - 1] == s[..i];
  }

  /** A prefix of `s` in which `pat` does not start is copied unchanged. */
  lemma {:induction false} ReplaceAllSkip(s: string, pat: string, rep: string, i: nat)
    requires |pat| > 0 && i <= |s|
    requires forall k: nat :: k < i ==> !OccursAt(s, pat, k)
    ensures ReplaceAll(s, pat, rep) == s[..i] + ReplaceAll(s[i..], pat, rep)
    ensures Count(s, pat) == Count(s[i..], pat)
    decreases i
  {
    if i == 0 {
      assert s[..0] + ReplaceAll(s[0..], pat, rep) == ReplaceAll(s, pat, rep);
    } else {
      var t := s[1..];
      ReplaceAllStep(s, pat, rep);
      TailAvoids(s, pat, i);
      ReplaceAllSkip(t, pat, rep, i - 1);
      assert t[i - 1..] == s[i..];
      SkipOne(s, i, ReplaceAll(s[i..], pat, rep));
    }
  }

  /** Where `pat` occurs at the front it is replaced by `rep`. */
  lemma ReplaceAllAtMatch(s: string, pat: string, rep: string)
    requires |pat| > 0 && OccursAt(s, pat, 0)
    ensures ReplaceAll(s, pat, rep) == rep + ReplaceAll(s[|pat|..], pat, rep)
    ensures Count(s, pat) == 1 + Count(s[|pat|..], pat)
  {
  }

  /** Text without an occurrence of a non-empty pattern is left byte for byte unchanged. */
  lemma ReplaceAllNoMatch(s: string, pat: string, rep: string)
    requires |pat| > 0 && !Contains(s, pat)
    ensures ReplaceAll(s, pat, rep) == s
    ensures Count(s, pat) == 0
  {
    ReplaceAllSkip(s, pat, rep, |s|);
    assert s[..|s|] == s;
  }

  /** For a non-empty pattern, `Count` is zero exactly when the pattern does not occur. */
  lemma CountZeroIff(s: string, pat: string)
    requires |pat| > 0
    ensures Count(s, pat) == 0 <==> !Contains(s, pat)
  {
    FirstIndexIsLeftmost(s, pat);
    match FirstIndex(s, pat)
    case None =>
      ReplaceAllNoMatch(s, pat, "");
    case Some(i) =>
      ReplaceAllAtFirst(s, pat, "", i);
  }

  lemma MulSucc(c: nat, d: int)
    ensures (1 + c) * d == d + c * d
  {
  }

  /** Each replacement changes the length by `|rep| - |pat|`; nothing else changes it. */
  lemma {:induction false} ReplaceAllLength(s: string, pat: string, rep: string)
    ensures |ReplaceAll(s, pat, rep)| == |s| + Count(s, pat) * (|rep| - |pat|)
    decreases |s|
  {
    if |pat| == 0 {
      if |s| > 0 {
        ReplaceAllLength(s[1..], pat, rep);
        MulSucc(Count(s[1..], pat), |rep|);
      }
    } else if |s| < |pat| {
    } else if s[..|pat|] == pat {
      ReplaceAllLength(s[|pat|..], pat, rep);
      MulSucc(Count(s[|pat|..], pat), |rep| - |pat|);
    } else {
      ReplaceAllLength(s[1..], pat, rep);
    }
  }

  lemma Assoc(a: string, b: string, c: string)
    ensures a + b + c == a + (b + c)
  {
  }

  /** Replacement from an occurrence on starts with the replacement text. */
  lemma ReplaceAllFromOccurrence(s: string, pat: string, rep: string, i: nat)
    requires |pat| > 0 && OccursAt(s, pat, i)
    ensures ReplaceAll(s[i..], pat, rep) == rep + ReplaceAll(s[i + |pat|..], pat, rep)
    ensures Count(s[i..], pat) == 1 + Count(s[i + |pat|..], pat)
  {
    var t := s[i..];
    assert t[0..|pat|] == s[i..i + |pat|];
    assert t[|pat|..] == s[i + |pat|..];
    ReplaceAllAtMatch(t, pat, rep);
  }

  /** Replacement copies the text before the leftmost occurrence, replaces it, and goes on after it. */
  lemma ReplaceAllAtFirst(s: string, pat: string, rep: string, i: nat)
    requires |pat| > 0 && FirstIndex(s, pat) == Some(i)
    ensures ReplaceAll(s, pat, rep) == s[..i] + rep + ReplaceAll(s[i + |pat|..], pat, rep)
    ensures Count(s, pat) == 1 + Count(s[i + |pat|..], pat)
  {
    FirstIndexIsLeftmost(s, pat);
    ReplaceAllSkip(s, pat, rep, i);
    ReplaceAllFromOccurrence(s, pat, rep, i);
    Assoc(s[..i], rep, ReplaceAll(s[i + |pat|..], pat, rep));
  }

  lemma JoinCons(p: string, tail: seq<string>, sep: string)
    requires |tail| > 0
    ensures Join([p] + tail, sep) == p + sep + Join(tail, sep)
  {
    assert ([p] + tail)[1..] == tail;
  }

  /**
    Replacement is Python's `rep.join(s.split(pat))`, and `Count` is the
    number of joints.
   */
  lemma {:induction false} ReplaceAllIsJoinOfSplit(s: string, pat: string, rep: string)
    requires |pat| > 0
    ensures ReplaceAll(s, pat, rep) == Join(Split(s, pat), rep)
    ensures Count(s, pat) == |Split(s, pat)| - 1
    decreases |s|
  {
    match FirstIndex(s, pat)
    case None =>
      FirstIndexIsLeftmost(s, pat);
      ReplaceAllNoMatch(s, pat, rep);
    case Some(i) =>
      var rest := s[i + |pat|..];
      ReplaceAllAtFirst(s, pat, rep, i);
      ReplaceAllIsJoinOfSplit(rest, pat, rep);
      SplitAtFirst(s, pat, i);
      JoinCons(s[..i], Split(rest, pat), rep);
  }

  /** The text before the leftmost occurrence does not contain the pattern. */
  lemma PrefixBeforeFirstAvoids(s: string, pat: string, i: nat)
    requires |pat| > 0 && i <= |s|
    requires forall k: nat :: k < i ==> !OccursAt(s, pat, k)
    ensures !Contains(s[..i], pat)
  {
    forall k: nat | k <= i ensures !OccursAt(s[..i], pat, k) {
      if k + |pat| <= i {
        assert s[..i][k..k + |pat|] == s[k..k + |pat|];
        assert !OccursAt(s, pat, k);
      }
    }
  }

  /** The piece before the leftmost occurrence is free of the pattern. */
  lemma FirstPieceAvoids(s: string, pat: string, i: nat)
    requires |pat| > 0 && FirstIndex(s, pat) == Some(i)
    ensures FirstIndex(s[..i], pat).None?
  {
    FirstIndexIsLeftmost(s, pat);
    PrefixBeforeFirstAvoids(s, pat, i);
    FirstIndexIsLeftmost(s[..i], pat);
  }

  lemma SplitAtFirst(s: string, pat: string, i: nat)
    requires |pat| > 0 && FirstIndex(s, pat) == Some(i)
    ensures Split(s, pat) == [s[..i]] + Split(s[i + |pat|..], pat)
  {
  }

  /** No piece of a split contains the separator. */
  lemma {:induction false} SplitPiecesAvoidPattern(s: string, pat: string)
    requires |pat| > 0
    ensures forall piece :: piece in Split(s, pat) ==> FirstIndex(piece, pat).None?
    decreases |s|
  {
    match FirstIndex(s, pat)
    case None =>
    case Some(i) =>
      var first, rest := s[..i], s[i + |pat|..];
      SplitPiecesAvoidPattern(rest, pat);
      FirstPieceAvoids(s, pat, i);
      SplitAtFirst(s, pat, i);
      var tail := Split(rest, pat);
      forall piece | piece in [first] + tail ensures FirstIndex(piece, pat).None? {
        if piece != first {
          assert piece in tail;
        }
      }
  }

  /** Splitting on `pat` and joining with `pat` gives the text back. */
  lemma {:induction false} JoinSplitRoundTrip(s: string, pat: string)
    requires |pat| > 0
    ensures Join(Split(s, pat), pat) == s
    decreases |s|
  {
    match FirstIndex(s, pat)
    case None =>
    case Some(i) =>
      var first, rest := s[..i], s[i + |pat|..];
      JoinSplitRoundTrip(rest, pat);
      SplitAtFirst(s, pat, i);
      JoinCons(first, Split(rest, pat), pat);
      Around(s, i, i + |pat|);
  }

  lemma Around(s: string, i: nat, j: nat)
    requires i <= j <= |s|
    ensures s[..i] + s[i..j] + s[j..] == s
  {
  }

  /** How often `c` occurs in `s`. */
  function Tally(s: string, c: char): nat {
    multiset(s)[c]
  }

  lemma TallyConcat(a: string, b: string, c: char)
    ensures Tally(a + b, c) == Tally(a, c) + Tally(b, c)
  {
    assert multiset(a + b) == multiset(a) + multiset(b);
  }

  lemma TallyAbsent(a: string, c: char)
    requires c !in a
    ensures Tally(a, c) == 0
  {
  }

  lemma KeepsOnEmptyPattern(s: string, pat: string, rep: string, c: char)
    requires |pat| == 0 && |s| > 0 && Tally(rep, c) == 0
    requires Tally(ReplaceAll(s[1..], pat, rep), c) == Tally(s[1..], c)
    ensures Tally(ReplaceAll(s, pat, rep), c) == Tally(s, c)
  {
    var t := s[1..];
    TallyConcat(rep, [s[0]], c);
    TallyConcat(rep + [s[0]], ReplaceAll(t, pat, rep), c);
    assert s == [s[0]] + t;
    TallyConcat([s[0]], t, c);
  }

  lemma KeepsOnMatch(s: string, pat: string, rep: string, c: char)
    requires |pat| > 0 && OccursAt(s, pat, 0) && Tally(rep, c) == 0 && Tally(pat, c) == 0
    requires Tally(ReplaceAll(s[|pat|..], pat, rep), c) == Tally(s[|pat|..], c)
    ensures Tally(ReplaceAll(s, pat, rep), c) == Tally(s, c)
  {
    var t := s[|pat|..];
    ReplaceAllAtMatch(s, pat, rep);
    TallyConcat(rep, ReplaceAll(t, pat, rep), c);
    assert s == pat + t;
    TallyConcat(pat, t, c);
  }

  lemma KeepsOnCopy(s: string, pat: string, rep: string, c: char)
    requires |pat| > 0 && |s| > 0 && !OccursAt(s, pat, 0)
    requires Tally(ReplaceAll(s[1..], pat, rep), c) == Tally(s[1..], c)
    ensures Tally(ReplaceAll(s, pat, rep), c) == Tally(s, c)
  {
    var t := s[1..];
    ReplaceAllStep(s, pat, rep);
    TallyConcat([s[0]], ReplaceAll(t, pat, rep), c);
    assert s == [s[0]] + t;
    TallyConcat([s[0]], t, c);
  }

  /** A character in neither the pattern nor the replacement occurs as often after as before. */
  lemma {:induction false} ReplaceAllKeepsCharCount(s: string, pat: string, rep: string, c: char)
    requires c !in pat && c !in rep
    ensures Tally(ReplaceAll(s, pat, rep), c) == Tally(s, c)
    decreases |s|
  {
    TallyAbsent(rep, c);
    TallyAbsent(pat, c);
    if |pat| == 0 {
      if |s| > 0 {
        ReplaceAllKeepsCharCount(s[1..], pat, rep, c);
        KeepsOnEmptyPattern(s, pat, rep, c);
      }
    } else if |s| == 0 {
    } else if OccursAt(s, pat, 0) {
      ReplaceAllKeepsCharCount(s[|pat|..], pat, rep, c);
      KeepsOnMatch(s, pat, rep, c);
    } else {
      ReplaceAllKeepsCharCount(s[1..], pat, rep, c);
      KeepsOnCopy(s, pat, rep, c);
    }
  }

  /**
    A pattern with a character `t[k]` found nowhere else in `t`, nor in `a`
    or `b`, occurs in `a + t + b` exactly once, right after `a`.
   */
  lemma OccurrencesByMarker(a: string, t: string, b: string, k: nat)
    requires k < |t|
    requires t[k] !in a && t[k] !in b
    requires forall j :: 0 <= j < |t| && j != k ==> t[j] != t[k]
    ensures Occurrences(a + t + b, t) == {|a|}
  {
    var s := a + t + b;
    assert s[|a|..|a| + |t|] == t;
    assert OccursAt(s, t, |a|);
    forall j | 0 <= j < |s| && j != |a| + k ensures s[j] != t[k] {
      if j < |a| {
        assert s[j] == a[j];
      } else if j >= |a| + |t| {
        assert s[j] == b[j - |a| - |t|];
      } else {
        assert s[j] == t[j - |a|];
      }
    }
    forall i | i in Occurrences(s, t) ensures i == |a| {
      assert s[i + k] == s[i..i + |t|][k];
    }
  }

  /** A pattern with a character that `s` lacks does not occur in `s`. */
  lemma NoOccurrenceByMarker(s: string, t: string, k: nat)
    requires k < |t| && t[k] !in s
    ensures Occurrences(s, t) == {}
  {
    forall i: nat ensures !OccursAt(s, t, i) {
      if i + |t| <= |s| {
        assert s[i..i + |t|][k] == s[i + k];
      }
    }
  }
}
