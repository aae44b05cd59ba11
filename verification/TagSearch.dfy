/**
 The two searches of the think-tag filter: the leftmost case-insensitive occurrence of a literal tag followed by a
 greedy run of whitespace or `>`, and the search for a held prefix of the opening tag at the end of a buffer.
 */
module TagSearch {

  const OPEN := "<think"
  const CLOSE := "</think"

  /** The characters Python's `\s` and `str.strip` treat as whitespace. */
  predicate IsSpace(c: char) {
    || '\U{9}' <= c <= '\U{D}' || '\U{1C}' <= c <= '\U{20}' || c == '\U{85}' || c == '\U{A0}' || c == '\U{1680}'
    || '\U{2000}' <= c <= '\U{200A}' || c == '\U{2028}' || c == '\U{2029}' || c == '\U{202F}' || c == '\U{205F}'
    || c == '\U{3000}'
  }

  /** The class `[\s>]` that may follow a tag. */
  predicate IsTail(c: char) {
    IsSpace(c) || c == '>'
  }

  /** Case folding on ASCII letters. */
  function Fold(c: char): char {
    if 'A' <= c <= 'Z' then c - 'A' + 'a' else c
  }

  predicate MatchAt(s: string, tag: string, i: nat) {
    i + |tag| <= |s| && forall k :: 0 <= k < |tag| ==> Fold(s[i + k]) == tag[k]
  }

  predicate NoMatch(s: string, tag: string) {
    forall j: nat | j <= |s| :: !MatchAt(s, tag, j)
  }

  lemma {:induction false} LeftmostExists(s: string, tag: string, i: nat)
    requires MatchAt(s, tag, i)
    ensures exists r: nat :: r <= i && MatchAt(s, tag, r) && forall j: nat | j < r :: !MatchAt(s, tag, j)
  {
    if j: nat :| j < i && MatchAt(s, tag, j) {
      LeftmostExists(s, tag, j);
    }
  }

  /** The start of the leftmost occurrence, or -1. */
  ghost function Find(s: string, tag: string): (r: int)
    ensures -1 <= r <= |s|
    ensures r == -1 ==> NoMatch(s, tag)
    ensures r >= 0 ==> MatchAt(s, tag, r) && forall j: nat | j < r :: !MatchAt(s, tag, j)
  {
    if i: nat :| MatchAt(s, tag, i) then
      LeftmostExists(s, tag, i);
      var r: nat :| MatchAt(s, tag, r) && forall j: nat | j < r :: !MatchAt(s, tag, j);
      r
    else -1
  }

  method Search(s: string, tag: string) returns (k: int)
    ensures k == Find(s, tag)
  {
    for i := 0 to |s| + 1
      invariant forall j: nat | j < i :: !MatchAt(s, tag, j)
    {
      if MatchAt(s, tag, i) {
        return i;
      }
    }
    return -1;
  }

  /** `e` ends the greedy run of tail characters that starts at `i`. */
  ghost predicate IsTailEnd(s: string, i: nat, e: nat) {
    && i <= e <= |s|
    && (forall k | i <= k < e :: IsTail(s[k]))
    && (e < |s| ==> !IsTail(s[e]))
  }

  lemma {:induction false} TailEndExists(s: string, i: nat)
    requires i <= |s|
    ensures exists e: nat :: IsTailEnd(s, i, e)
    decreases |s| - i
  {
    if i < |s| && IsTail(s[i]) {
      TailEndExists(s, i + 1);
      var e: nat :| IsTailEnd(s, i + 1, e);
      assert IsTailEnd(s, i, e);
    } else {
      assert IsTailEnd(s, i, i);
    }
  }

  ghost function TailEnd(s: string, i: nat): (e: nat)
    requires i <= |s|
    ensures IsTailEnd(s, i, e)
    ensures forall d: nat | IsTailEnd(s, i, d) :: d == e
  {
    TailEndExists(s, i);
    var e: nat :| IsTailEnd(s, i, e);
    e
  }

  method SkipTail(s: string, i: nat) returns (e: nat)
    requires i <= |s|
    ensures e == TailEnd(s, i)
  {
    e := i;
    while e < |s| && IsTail(s[e])
      invariant i <= e <= |s| && forall k | i <= k < e :: IsTail(s[k])
    {
      e := e + 1;
    }
    assert IsTailEnd(s, i, e);
  }

  /** The last `i` characters of `s` fold to the first `i` characters of the opening tag. */
  predicate PartialSuffix(s: string, i: nat) {
    1 <= i <= |OPEN| && i <= |s| && forall k :: 0 <= k < i ==> Fold(s[|s| - i + k]) == OPEN[k]
  }

  /** The held suffix starts at the only `<` it contains. */
  lemma PartialSuffixBracket(s: string, i: nat)
    requires PartialSuffix(s, i)
    ensures s[|s| - i] == '<' && forall k :: |s| - i < k < |s| ==> s[k] != '<'
  {
    assert Fold(s[|s| - i + 0]) == OPEN[0];
    forall k | |s| - i < k < |s| ensures s[k] != '<' {
      assert Fold(s[|s| - i + (k - (|s| - i))]) == OPEN[k - (|s| - i)];
    }
  }

  /** At most one length can match, because `<` occurs in the tag only at its start. */
  lemma PartialSuffixUnique(s: string, i: nat, j: nat)
    requires PartialSuffix(s, i) && PartialSuffix(s, j)
    ensures i == j
  {
    PartialSuffixBracket(s, i);
    PartialSuffixBracket(s, j);
  }

  /** The length of the held suffix, 0 when nothing is held. */
  ghost function HeldLen(s: string): (h: nat)
    ensures h <= |s| && h <= |OPEN|
    ensures h > 0 ==> PartialSuffix(s, h)
    ensures forall i: nat | PartialSuffix(s, i) :: i == h
  {
    if exists i: nat :: PartialSuffix(s, i) then
      var i: nat :| PartialSuffix(s, i);
      assert forall j: nat | PartialSuffix(s, j) :: j == i by {
        forall j: nat | PartialSuffix(s, j) ensures j == i { PartialSuffixUnique(s, i, j); }
      }
      i
    else 0
  }

  /** A held suffix of a text that does not contain the tag is shorter than the tag. */
  lemma HeldIsProper(s: string)
    requires NoMatch(s, OPEN)
    ensures HeldLen(s) < |OPEN|
  {
    if HeldLen(s) == |OPEN| {
      assert MatchAt(s, OPEN, |s| - |OPEN|);
    }
  }

  /** The held suffix is held again when it is all there is. */
  lemma HeldOfHeld(s: string)
    requires HeldLen(s) > 0
    ensures HeldLen(s[|s| - HeldLen(s)..]) == HeldLen(s)
  {
    assert PartialSuffix(s[|s| - HeldLen(s)..], HeldLen(s));
  }

  lemma PartialRight(x: string, y: string, i: nat)
    requires i <= |y|
    ensures PartialSuffix(x + y, i) == PartialSuffix(y, i)
  {
    assert (x + y)[|x|..] == y;
    if 1 <= i <= |OPEN| {
      assert forall k | |y| - i <= k < |y| :: (x + y)[|x| + k] == y[k];
      if PartialSuffix(y, i) {
        forall k | 0 <= k < i ensures Fold((x + y)[|x + y| - i + k]) == OPEN[k] {
          assert Fold(y[|y| - i + k]) == OPEN[k];
        }
      }
      if PartialSuffix(x + y, i) {
        forall k | 0 <= k < i ensures Fold(y[|y| - i + k]) == OPEN[k] {
          assert Fold((x + y)[|x + y| - i + k]) == OPEN[k];
        }
      }
    }
  }

  /** A held suffix that lies within `y` does not depend on what precedes `y`. */
  lemma HeldRight(x: string, y: string)
    requires forall i: nat | PartialSuffix(x + y, i) :: i <= |y|
    ensures HeldLen(x + y) == HeldLen(y)
  {
    if HeldLen(y) > 0 {
      PartialRight(x, y, HeldLen(y));
    }
    if HeldLen(x + y) > 0 {
      PartialRight(x, y, HeldLen(x + y));
    }
  }

  /** A held suffix of `a + b` starts no earlier than the one of `a`, or in `b`. */
  lemma HeldAcross(a: string, b: string)
    ensures forall i: nat | PartialSuffix(a + b, i) :: i <= HeldLen(a) + |b|
  {
    forall i: nat | PartialSuffix(a + b, i) && i > |b| ensures i - |b| == HeldLen(a) {
      PartialLeft(a, b, i);
    }
  }

  lemma PartialLeft(a: string, b: string, i: nat)
    requires PartialSuffix(a + b, i) && i > |b|
    ensures PartialSuffix(a, i - |b|)
  {
    forall k | 0 <= k < i - |b| ensures Fold(a[|a| - (i - |b|) + k]) == OPEN[k] {
      assert Fold((a + b)[|a + b| - i + k]) == OPEN[k];
    }
  }

  /** What is held back at the end of `a` is enough to find any opening tag that crosses into `b`. */
  lemma HeldFindsOpen(a: string, b: string)
    requires NoMatch(a, OPEN)
    ensures forall j: nat | j < |a| - HeldLen(a) :: !MatchAt(a + b, OPEN, j)
  {
    forall j: nat | j < |a| && MatchAt(a + b, OPEN, j) ensures |a| - j == HeldLen(a) {
      if j + |OPEN| <= |a| {
        MatchInLeft(a, b, OPEN, j);
      } else {
        forall k | 0 <= k < |a| - j ensures Fold(a[|a| - (|a| - j) + k]) == OPEN[k] {
          assert Fold((a + b)[j + k]) == OPEN[k];
        }
        assert PartialSuffix(a, |a| - j);
      }
    }
  }

  /** `str.lower` on the tail of the text is a character-wise fold here. */
  method FindPartialOpen(text: string) returns (start: int)
    ensures start == -1 <==> HeldLen(text) == 0
    ensures start != -1 ==> start == |text| - HeldLen(text)
  {
    for i := 1 to |OPEN| + 1
      invariant forall j: nat | j < i :: !PartialSuffix(text, j)
    {
      if PartialSuffix(text, i) {
        return |text| - i;
      }
    }
    return -1;
  }

  // ---- how a search sees the boundary between two pieces of text ----

  lemma MatchInLeft(a: string, b: string, tag: string, j: nat)
    requires j + |tag| <= |a|
    ensures MatchAt(a + b, tag, j) == MatchAt(a, tag, j)
  {
  }

  lemma MatchInRight(a: string, b: string, tag: string, j: nat)
    ensures MatchAt(a + b, tag, |a| + j) == MatchAt(b, tag, j)
  {
    assert (a + b)[|a|..] == b;
    if j + |tag| <= |b| {
      assert forall k | j <= k < j + |tag| :: (a + b)[|a| + k] == b[k];
    }
  }

  /** An occurrence in the left part stays the leftmost one. */
  lemma FindLeft(a: string, b: string, tag: string)
    requires tag != "" && Find(a, tag) >= 0
    ensures Find(a + b, tag) == Find(a, tag)
  {
    var k := Find(a, tag);
    MatchInLeft(a, b, tag, k);
    forall j: nat | j < k ensures !MatchAt(a + b, tag, j) { MatchInLeft(a, b, tag, j); }
  }

  /** When no occurrence starts in the left part, the search moves to the right part. */
  lemma FindRight(a: string, b: string, tag: string)
    requires tag != "" && forall j: nat | j < |a| :: !MatchAt(a + b, tag, j)
    ensures Find(b, tag) < 0 ==> Find(a + b, tag) == -1
    ensures Find(b, tag) >= 0 ==> Find(a + b, tag) == |a| + Find(b, tag)
  {
    forall j: nat ensures MatchAt(a + b, tag, |a| + j) == MatchAt(b, tag, j) {
      MatchInRight(a, b, tag, j);
    }
    var r := Find(a + b, tag);
    assert r >= 0 ==> MatchAt(b, tag, r - |a|);
  }

  /** A tag contains `<` exactly at its start. */
  lemma MatchBracket(s: string, tag: string, j: nat)
    requires tag == OPEN || tag == CLOSE
    requires MatchAt(s, tag, j)
    ensures s[j] == '<' && forall k :: j < k < j + |tag| ==> s[k] != '<'
  {
    assert Fold(s[j + 0]) == tag[0];
    forall k | j < k < j + |tag| ensures s[k] != '<' {
      assert Fold(s[j + (k - j)]) == tag[k - j];
    }
  }

  /** Text without `<` never contains the start of a tag. */
  lemma NoBracketNoMatch(u: string, b: string, tag: string)
    requires tag == OPEN || tag == CLOSE
    requires forall k :: 0 <= k < |u| ==> u[k] != '<'
    ensures forall j: nat | j < |u| :: !MatchAt(u + b, tag, j)
  {
    forall j: nat | j < |u| && MatchAt(u + b, tag, j) ensures false {
      MatchBracket(u + b, tag, j);
    }
  }

  lemma TailEndLeft(a: string, b: string, i: nat)
    requires i <= |a| && TailEnd(a, i) < |a|
    ensures TailEnd(a + b, i) == TailEnd(a, i)
  {
    assert IsTailEnd(a + b, i, TailEnd(a, i));
  }

  lemma TailEndAcross(a: string, b: string, i: nat)
    requires i <= |a| && TailEnd(a, i) == |a|
    ensures TailEnd(a + b, i) == |a| + TailEnd(b, 0)
  {
    assert IsTailEnd(a + b, i, |a| + TailEnd(b, 0));
  }

  lemma TailEndRight(a: string, b: string, i: nat)
    requires i <= |b|
    ensures TailEnd(a + b, |a| + i) == |a| + TailEnd(b, i)
  {
    assert IsTailEnd(a + b, |a| + i, |a| + TailEnd(b, i));
  }

  /** Opening and closing tags never overlap. */
  lemma TagsDisjoint(s: string, o: nat, c: nat)
    requires MatchAt(s, OPEN, o) && MatchAt(s, CLOSE, c)
    ensures o + |OPEN| <= c || c + |CLOSE| <= o
  {
    MatchBracket(s, OPEN, o);
    MatchBracket(s, CLOSE, c);
    assert Fold(s[o + 1]) == OPEN[1];
    assert Fold(s[c + 1]) == CLOSE[1];
  }
}
