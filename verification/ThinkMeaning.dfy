/**
 What a run of the filter means: the visible text, the thinking text without whitespace, and the state left behind.
 The main result is `ThinkEvents.ChunkingExact`: a chunked run reads like one call on the whole stream if and only if no
 chunk boundary splits a closing tag inside think or separates a tag from its tail.
 */
module ThinkMeaning {
  import opened Common
  import opened TagSearch
  import opened ThinkFilter

  /** A text without its whitespace: the view in which thinking text is compared, since it is stripped piecewise. */
  function Dense(s: string): string {
    if s == "" then "" else (if IsSpace(s[0]) then "" else [s[0]]) + Dense(s[1..])
  }

  /** The visible text of one segment, and its thinking text. */
  function TextOf(g: Segment): string {
    if g.Text? then g.s else ""
  }

  function ThoughtOf(g: Segment): string {
    if g.Thought? || g.Eager? then Dense(g.s) else ""
  }

  function Texts(segs: seq<Segment>): string {
    if segs == [] then "" else TextOf(segs[0]) + Texts(segs[1..])
  }

  function Thoughts(segs: seq<Segment>): string {
    if segs == [] then "" else ThoughtOf(segs[0]) + Thoughts(segs[1..])
  }

  datatype Outcome = Outcome(visible: string, thinking: string, rest: State) {
    /** What the reader has seen after the final `flush`. */
    function Shown(): string {
      visible + rest.buffer
    }

    function After(v: string, t: string): Outcome {
      Outcome(v + visible, t + thinking, rest)
    }
  }

  /** One call of `process` on a buffer. */
  ghost function Out(buf: string, inThink: bool): Outcome {
    var r := Scan(buf, inThink);
    Outcome(Texts(r.segs), Thoughts(r.segs), r.rest)
  }

  /** One call of `process` per chunk. */
  ghost function RunOut(st: State, chunks: seq<string>): Outcome
    decreases |chunks|
  {
    if chunks == [] then Outcome("", "", st)
    else
      var r := Out(st.buffer + chunks[0], st.inThink);
      RunOut(r.rest, chunks[1..]).After(r.visible, r.thinking)
  }

  function Concat(chunks: seq<string>): string {
    if chunks == [] then "" else chunks[0] + Concat(chunks[1..])
  }

  // ---- clean boundaries ----

  /**
   `segs` is the log of one call and `b` everything that arrives later. The boundary is clean unless the call ended in
   a tag whose tail continues in `b`, or inside think in the first part of a closing tag that `b` completes. After an
   opening tag a whitespace tail does no harm, because thinking text is stripped.
   */
  ghost predicate CleanEdge(segs: seq<Segment>, b: string) {
    segs != [] ==>
      match segs[|segs| - 1]
      case CloseTag(_) => TailEnd(b, 0) == 0
      case OpenTag(_) => forall k | 0 <= k < TailEnd(b, 0) :: IsSpace(b[k])
      case Eager(s) => forall j: nat | j < |s| :: !Straddles(s, b, j)
      case Text(_) => true
      case Thought(_) => true
  }

  ghost predicate Straddles(s: string, b: string, j: nat) {
    j < |s| < j + |CLOSE| && MatchAt(s + b, CLOSE, j)
  }

  ghost predicate Clean(st: State, chunks: seq<string>)
    decreases |chunks|
  {
    chunks != [] ==>
      var r := Scan(st.buffer + chunks[0], st.inThink);
      CleanEdge(r.segs, Concat(chunks[1..])) && Clean(r.rest, chunks[1..])
  }

  // ---- equations ----

  lemma {:induction false} DenseConcat(a: string, b: string)
    ensures Dense(a + b) == Dense(a) + Dense(b)
  {
    if a == "" {
      assert a + b == b;
    } else {
      DenseConcat(a[1..], b);
      assert (a + b)[0] == a[0] && (a + b)[1..] == a[1..] + b;
      Assoc(if IsSpace(a[0]) then "" else [a[0]], Dense(a[1..]), Dense(b));
    }
  }

  lemma {:induction false} DenseLength(a: string)
    ensures |Dense(a)| <= |a|
    ensures |Dense(a)| == 0 <==> forall k | 0 <= k < |a| :: IsSpace(a[k])
  {
    if a == "" {
    } else {
      DenseLength(a[1..]);
      assert forall k | 1 <= k < |a| :: a[k] == a[1..][k - 1];
    }
  }

  lemma TwoTexts(g: Segment, h: Segment, rest: seq<Segment>)
    ensures Texts([g, h] + rest) == TextOf(g) + (TextOf(h) + Texts(rest))
  {
  }

  lemma TwoThoughts(g: Segment, h: Segment, rest: seq<Segment>)
    ensures Thoughts([g, h] + rest) == ThoughtOf(g) + (ThoughtOf(h) + Thoughts(rest))
  {
  }

  /** A tag adds nothing to either text. */
  lemma TaggedMeaning(g: Segment, tag: Segment, r: Scanned)
    requires tag.OpenTag? || tag.CloseTag?
    ensures Outcome(Texts([g, tag] + r.segs), Thoughts([g, tag] + r.segs), r.rest)
         == Outcome(Texts(r.segs), Thoughts(r.segs), r.rest).After(TextOf(g), ThoughtOf(g))
  {
    TwoTexts(g, tag, r.segs);
    TwoThoughts(g, tag, r.segs);
    assert "" + Texts(r.segs) == Texts(r.segs) && "" + Thoughts(r.segs) == Thoughts(r.segs);
  }

  lemma OutClosed(s: string, k: nat, e: nat, before: string, after: string)
    requires k == Find(s, CLOSE) && e == TailEnd(s, k + |CLOSE|)
    requires before == s[..k] && after == s[e..]
    ensures Out(s, true) == Out(after, false).After("", Dense(before))
  {
    TaggedMeaning(Thought(before), CloseTag(s[k..e]), Scan(after, false));
  }

  lemma OutOpened(s: string, k: nat, e: nat, before: string, after: string)
    requires k == Find(s, OPEN) && e == TailEnd(s, k + |OPEN|)
    requires before == s[..k] && after == s[e..]
    ensures Out(s, false) == Out(after, true).After(before, "")
  {
    ScanOpened(s, k, e);
    TaggedMeaning(Text(before), OpenTag(s[k..e]), Scan(after, true));
  }

  lemma OutEager(s: string)
    requires Find(s, CLOSE) < 0
    ensures Out(s, true) == Outcome("", Dense(s), State("", true))
  {
    if s != "" {
      assert Scan(s, true).segs == [Eager(s)];
      assert [Eager(s)][1..] == [];
      assert Texts([Eager(s)]) == "" && Thoughts([Eager(s)]) == Dense(s);
    }
  }

  lemma OutHeld(s: string)
    requires Find(s, OPEN) < 0
    ensures Out(s, false) == Outcome(s[..|s| - HeldLen(s)], "", State(s[|s| - HeldLen(s)..], false))
  {
    if s != "" {
      var g := Text(s[..|s| - HeldLen(s)]);
      assert Scan(s, false).segs == [g];
      assert [g][1..] == [];
      assert Texts([g]) == g.s && Thoughts([g]) == "";
    }
  }

  lemma SliceRight(u: string, r: string, i: nat)
    requires i <= |r|
    ensures (u + r)[|u| + i..] == r[i..]
    ensures (u + r)[..|u| + i] == u + r[..i]
  {
  }

  lemma MoreThinking(o: Outcome, t: string, u: string)
    ensures o.After("", t + u) == o.After("", u).After("", t)
  {
    assert t + (u + o.thinking) == t + u + o.thinking;
  }

  lemma MoreVisible(o: Outcome, v: string, w: string)
    ensures o.After(v + w, "") == o.After(w, "").After(v, "")
  {
    assert v + (w + o.visible) == v + w + o.visible;
  }

  /** Text that starts no tag just goes where the filter currently sends text. */
  lemma LeadInside(u: string, r: string)
    requires forall j: nat | j < |u| :: !MatchAt(u + r, CLOSE, j)
    ensures Out(u + r, true) == Out(r, true).After("", Dense(u))
  {
    FindRight(u, r, CLOSE);
    if Find(r, CLOSE) >= 0 {
      LeadInsideClosed(u, r, Find(r, CLOSE));
    } else {
      OutEager(r);
      OutEager(u + r);
      DenseConcat(u, r);
    }
  }

  lemma LeadInsideClosed(u: string, r: string, c: nat)
    requires c == Find(r, CLOSE) && |u| + c == Find(u + r, CLOSE)
    ensures Out(u + r, true) == Out(r, true).After("", Dense(u))
  {
    var e := TailEnd(r, c + |CLOSE|);
    OutClosed(r, c, e, r[..c], r[e..]);
    ClosedLater(u, r, c, e, u + r[..c], r[e..]);
    DenseConcat(u, r[..c]);
    MoreThinking(Out(r[e..], false), Dense(u), Dense(r[..c]));
  }

  lemma ClosedLater(u: string, r: string, c: nat, e: nat, before: string, after: string)
    requires c == Find(r, CLOSE) && |u| + c == Find(u + r, CLOSE)
    requires e == TailEnd(r, c + |CLOSE|) && before == u + r[..c] && after == r[e..]
    ensures Out(u + r, true) == Out(after, false).After("", Dense(before))
  {
    TailEndRight(u, r, c + |CLOSE|);
    SliceRight(u, r, e);
    SliceRight(u, r, c);
    OutClosed(u + r, |u| + c, |u| + e, before, after);
  }

  lemma LeadOutside(u: string, r: string)
    requires forall j: nat | j < |u| :: !MatchAt(u + r, OPEN, j)
    requires forall i: nat | PartialSuffix(u + r, i) :: i <= |r|
    ensures Out(u + r, false) == Out(r, false).After(u, "")
  {
    FindRight(u, r, OPEN);
    if Find(r, OPEN) >= 0 {
      LeadOutsideOpened(u, r, Find(r, OPEN));
    } else {
      OutHeld(r);
      OutHeld(u + r);
      HeldRight(u, r);
      SliceRight(u, r, |r| - HeldLen(r));
    }
  }

  lemma LeadOutsideOpened(u: string, r: string, c: nat)
    requires c == Find(r, OPEN) && |u| + c == Find(u + r, OPEN)
    ensures Out(u + r, false) == Out(r, false).After(u, "")
  {
    var e := TailEnd(r, c + |OPEN|);
    TailEndRight(u, r, c + |OPEN|);
    SliceRight(u, r, e);
    SliceRight(u, r, c);
    OutOpened(r, c, e, r[..c], r[e..]);
    OutOpened(u + r, |u| + c, |u| + e, u + r[..c], r[e..]);
    MoreVisible(Out(r[e..], true), u, r[..c]);
  }

  lemma LeadPlain(u: string, r: string, inThink: bool)
    requires forall k | 0 <= k < |u| :: u[k] != '<'
    ensures Out(u + r, inThink) == if inThink then Out(r, true).After("", Dense(u)) else Out(r, false).After(u, "")
  {
    if inThink {
      NoBracketNoMatch(u, r, CLOSE);
      LeadInside(u, r);
    } else {
      NoBracketNoMatch(u, r, OPEN);
      forall i: nat | PartialSuffix(u + r, i) ensures i <= |r| { PartialSuffixBracket(u + r, i); }
      LeadOutside(u, r);
    }
  }

  // ---- one boundary ----

  /** The outcome of the whole text, when the boundary between `a` and `b` does not matter. */
  ghost function Joined(a: string, b: string, inThink: bool): Outcome {
    var r := Out(a, inThink);
    Out(r.rest.buffer + b, r.rest.inThink).After(r.visible, r.thinking)
  }

  lemma JoinedIs(a: string, b: string, m: bool, v: string, t: string, rest: State)
    requires Out(a, m) == Outcome(v, t, rest)
    ensures Joined(a, b, m) == Out(rest.buffer + b, rest.inThink).After(v, t)
  {
  }

  lemma JoinedHeld(a: string, b: string, x: string, y: string)
    requires Find(a, OPEN) < 0 && x == a[..|a| - HeldLen(a)] && y == a[|a| - HeldLen(a)..]
    ensures Joined(a, b, false) == Out(y + b, false).After(x, "")
  {
    OutHeld(a);
    JoinedIs(a, b, false, x, "", State(y, false));
  }

  /** Outside think the boundary never matters. */
  lemma JoinHeld(a: string, b: string)
    requires Find(a, OPEN) < 0
    ensures Out(a + b, false) == Joined(a, b, false)
  {
    var i := |a| - HeldLen(a);
    JoinedHeld(a, b, a[..i], a[i..]);
    OutHeldBefore(a, b, a[..i], a[i..]);
  }

  lemma OutHeldBefore(a: string, b: string, x: string, y: string)
    requires Find(a, OPEN) < 0 && x == a[..|a| - HeldLen(a)] && y == a[|a| - HeldLen(a)..]
    ensures Out(a + b, false) == Out(y + b, false).After(x, "")
  {
    assert x + (y + b) == a + b;
    HeldFindsOpen(a, b);
    HeldAcross(a, b);
    LeadOutside(x, y + b);
  }

  /** Inside think it does not matter when no closing tag straddles it. */
  lemma JoinEager(a: string, b: string)
    requires Find(a, CLOSE) < 0
    requires forall j: nat | j < |a| :: !Straddles(a, b, j)
    ensures Out(a + b, true) == Joined(a, b, true)
  {
    OutEager(a);
    forall j: nat | j < |a| ensures !MatchAt(a + b, CLOSE, j) {
      if j + |CLOSE| <= |a| {
        MatchInLeft(a, b, CLOSE, j);
      } else {
        assert !Straddles(a, b, j);
      }
    }
    LeadInside(a, b);
    assert "" + b == b;
  }

  /** The log of a call that ends in the tag `h`, or goes on after it. */
  lemma EdgeAfterTag(g: Segment, h: Segment, rest: seq<Segment>, b: string)
    ensures CleanEdge([g, h] + rest, b) == if rest == [] then CleanEdge([h], b) else CleanEdge(rest, b)
  {
    var segs := [g, h] + rest;
    assert segs[|segs| - 1] == if rest == [] then h else rest[|rest| - 1];
  }

  /** The rest of `a` after a tag, and the rest of `a + b` after the same tag. */
  lemma AfterTag(a: string, b: string, k: nat, tag: string)
    requires tag == OPEN || tag == CLOSE
    requires k == Find(a, tag)
    ensures Find(a + b, tag) == k && (a + b)[..k] == a[..k]
    ensures var e := TailEnd(a, k + |tag|);
      var n := if e == |a| then TailEnd(b, 0) else 0;
      && TailEnd(a + b, k + |tag|) == e + n
      && (a + b)[e + n..] == a[e..] + b[n..]
  {
    FindLeft(a, b, tag);
    var e := TailEnd(a, k + |tag|);
    if e < |a| {
      TailEndLeft(a, b, k + |tag|);
    } else {
      TailEndAcross(a, b, k + |tag|);
    }
  }

  lemma JoinStep(a: string, b: string, m: bool, rest: string, n: bool, v: string, t: string)
    requires Out(a, m) == Out(rest, n).After(v, t)
    ensures Joined(a, b, m) == Joined(rest, b, n).After(v, t)
  {
    var r := Out(rest, n);
    var o := Out(r.rest.buffer + b, r.rest.inThink);
    Assoc(v, r.visible, o.visible);
    Assoc(t, r.thinking, o.thinking);
  }

  lemma JoinEmpty(b: string, m: bool)
    ensures Joined("", b, m) == Out(b, m)
  {
    assert "" + b == b;
    var o := Out(b, m);
    assert o.After("", "") == o;
  }

  /** The edge of a call is the edge of what follows its first tag. */
  lemma EdgeClosed(a: string, b: string, k: nat, e: nat, rest: string)
    requires k == Find(a, CLOSE) && e == TailEnd(a, k + |CLOSE|) && rest == a[e..]
    ensures CleanEdge(Scan(a, true).segs, b)
         == if rest == "" then TailEnd(b, 0) == 0 else CleanEdge(Scan(rest, false).segs, b)
  {
    EdgeAfterTag(Thought(a[..k]), CloseTag(a[k..e]), Scan(rest, false).segs, b);
  }

  lemma EdgeOpened(a: string, b: string, k: nat, e: nat, rest: string)
    requires k == Find(a, OPEN) && e == TailEnd(a, k + |OPEN|) && rest == a[e..]
    ensures CleanEdge(Scan(a, false).segs, b)
         == if rest == "" then forall i | 0 <= i < TailEnd(b, 0) :: IsSpace(b[i])
            else CleanEdge(Scan(rest, true).segs, b)
  {
    EdgeAfterTag(Text(a[..k]), OpenTag(a[k..e]), Scan(rest, true).segs, b);
  }

  /** A clean boundary can be erased: one call on the whole text means what two calls mean. */
  lemma {:induction false} JoinClean(a: string, b: string, m: bool)
    requires CleanEdge(Scan(a, m).segs, b)
    ensures Out(a + b, m) == Joined(a, b, m)
    decreases |a|
  {
    var k := Find(a, if m then CLOSE else OPEN);
    if a == "" {
      assert a + b == b;
      JoinEmpty(b, m);
    } else if m {
      if k < 0 {
        assert Scan(a, m).segs == [Eager(a)];
        JoinEager(a, b);
      } else {
        var e := TailEnd(a, k + |CLOSE|);
        EdgeClosed(a, b, k, e, a[e..]);
        AfterTag(a, b, k, CLOSE);
        JoinClean(a[e..], b, false);
        JoinClosed(a, b, k, e, a[e..]);
      }
    } else {
      if k < 0 {
        JoinHeld(a, b);
      } else {
        var e := TailEnd(a, k + |OPEN|);
        EdgeOpened(a, b, k, e, a[e..]);
        AfterTag(a, b, k, OPEN);
        JoinClean(a[e..], b, true);
        JoinOpened(a, b, k, e, a[e..]);
      }
    }
  }

  lemma OutAfterClose(a: string, b: string, k: nat, e: nat, rest: string)
    requires k == Find(a, CLOSE) && e == TailEnd(a, k + |CLOSE|) && rest == a[e..]
    requires rest == "" ==> TailEnd(b, 0) == 0
    ensures Out(a + b, true) == Out(rest + b, false).After("", Dense(a[..k]))
  {
    AfterTag(a, b, k, CLOSE);
    assert b[0..] == b;
    OutClosed(a + b, k, e, a[..k], rest + b);
  }

  lemma JoinedAfterClose(a: string, b: string, k: nat, e: nat, rest: string)
    requires k == Find(a, CLOSE) && e == TailEnd(a, k + |CLOSE|) && rest == a[e..]
    ensures Joined(a, b, true) == Joined(rest, b, false).After("", Dense(a[..k]))
  {
    OutClosed(a, k, e, a[..k], rest);
    JoinStep(a, b, true, rest, false, "", Dense(a[..k]));
  }

  /** `n` characters of the tag's tail arrive with `b`. */
  lemma OutAfterOpen(a: string, b: string, k: nat, e: nat, n: nat, rest: string)
    requires k == Find(a, OPEN) && e == TailEnd(a, k + |OPEN|) && rest == a[e..]
    requires n == if rest == "" then TailEnd(b, 0) else 0
    ensures Out(a + b, false) == Out(rest + b[n..], true).After(a[..k], "")
  {
    AfterTag(a, b, k, OPEN);
    OutOpened(a + b, k, e + n, a[..k], rest + b[n..]);
  }

  lemma JoinedAfterOpen(a: string, b: string, k: nat, e: nat, rest: string)
    requires k == Find(a, OPEN) && e == TailEnd(a, k + |OPEN|) && rest == a[e..]
    ensures Joined(a, b, false) == Joined(rest, b, true).After(a[..k], "")
  {
    OutOpened(a, k, e, a[..k], rest);
    JoinStep(a, b, false, rest, true, a[..k], "");
  }

  lemma JoinClosed(a: string, b: string, k: nat, e: nat, rest: string)
    requires k == Find(a, CLOSE) && e == TailEnd(a, k + |CLOSE|) && rest == a[e..]
    requires rest == "" ==> TailEnd(b, 0) == 0
    requires Out(rest + b, false) == Joined(rest, b, false)
    ensures Out(a + b, true) == Joined(a, b, true)
  {
    OutAfterClose(a, b, k, e, rest);
    JoinedAfterClose(a, b, k, e, rest);
  }

  lemma JoinOpened(a: string, b: string, k: nat, e: nat, rest: string)
    requires k == Find(a, OPEN) && e == TailEnd(a, k + |OPEN|) && rest == a[e..]
    requires rest == "" ==> forall i | 0 <= i < TailEnd(b, 0) :: IsSpace(b[i])
    requires Out(rest + b, true) == Joined(rest, b, true)
    ensures Out(a + b, false) == Joined(a, b, false)
  {
    var n := if rest == "" then TailEnd(b, 0) else 0;
    OutAfterOpen(a, b, k, e, n, rest);
    JoinedAfterOpen(a, b, k, e, rest);
    SkipBlank(rest, b, n);
  }

  /** A whitespace tail that arrives after its opening tag disappears from the thinking text anyway. */
  lemma SkipBlank(rest: string, b: string, n: nat)
    requires n <= |b| && forall k | 0 <= k < n :: IsSpace(b[k])
    requires n > 0 ==> rest == ""
    ensures Out(rest + b[n..], true) == Out(rest + b, true)
  {
    assert b[..n] + b[n..] == b;
    if n == 0 {
      assert b[n..] == b;
    } else {
      assert rest + b == b && rest + b[n..] == b[n..];
      assert Dense(b[..n]) == "" by { DenseLength(b[..n]); }
      LeadPlain(b[..n], b[n..], true);
      NothingBefore(Out(b[n..], true));
    }
  }

  lemma NothingBefore(o: Outcome)
    ensures o.After("", "") == o
  {
  }
}
