/**
 Chunking-invariance of the think-tag filter, with its exact condition. A clean boundary changes nothing; an unclean
 one strictly adds thinking text, or adds visible text to the same thinking text, and no later chunk can take it back.
 */
module ThinkExact {
  import opened TagSearch
  import opened ThinkFilter
  import opened ThinkMeaning

  /** `y` has more thinking text than `x`, or as much of it and more visible text. */
  ghost predicate Less(x: Outcome, y: Outcome) {
    || |x.thinking| < |y.thinking|
    || (|x.thinking| == |y.thinking| && |x.Shown()| < |y.Shown()|)
  }

  ghost predicate SameText(x: Outcome, y: Outcome) {
    x.thinking == y.thinking && x.Shown() == y.Shown()
  }

  // ---- reading a text from inside think never yields less thinking text ----

  lemma DenseMono(a: string, i: nat)
    requires i <= |a|
    ensures |Dense(a)| == |Dense(a[..i])| + |Dense(a[i..])|
  {
    assert a[..i] + a[i..] == a;
    DenseConcat(a[..i], a[i..]);
  }

  lemma ThinkMore(r: string)
    ensures |Out(r, false).thinking| <= |Out(r, true).thinking|
  {
    var o, c := Find(r, OPEN), Find(r, CLOSE);
    if o < 0 {
      OutHeld(r);
    } else if c < 0 {
      ThinkMoreOpenFirst(r, o);
    } else {
      TagsDisjoint(r, o, c);
      if o < c {
        MatchBracket(r, CLOSE, c);
        ThinkMoreOpenFirst(r, o);
      } else {
        ThinkMoreCloseFirst(r, o, c);
      }
    }
  }

  lemma ThinkMoreOpenFirst(r: string, o: nat)
    requires o == Find(r, OPEN)
    requires forall j: nat | j < TailEnd(r, o + |OPEN|) :: !MatchAt(r, CLOSE, j)
    ensures |Out(r, false).thinking| <= |Out(r, true).thinking|
  {
    var e := TailEnd(r, o + |OPEN|);
    assert r[..e] + r[e..] == r;
    OutOpened(r, o, e, r[..o], r[e..]);
    LeadInside(r[..e], r[e..]);
  }

  lemma ThinkMoreCloseFirst(r: string, o: nat, c: nat)
    requires o == Find(r, OPEN) && c == Find(r, CLOSE) && c + |CLOSE| <= o
    ensures |Out(r, false).thinking| <= |Out(r, true).thinking|
  {
    var e := TailEnd(r, c + |CLOSE|);
    MatchBracket(r, OPEN, o);
    assert e <= o;
    var u, rest := r[..e], r[e..];
    assert u + rest == r;
    forall i: nat | PartialSuffix(u + rest, i) ensures i <= |rest| { PartialSuffixBracket(r, i); }
    LeadOutside(u, rest);
    OutClosed(r, c, e, r[..c], rest);
  }

  // ---- an unclean boundary ----

  /** The whole text is cut at a closing tag that starts in `a` and ends, with its tail, inside `b`. */
  lemma StraddleFound(a: string, b: string, j: nat) returns (c: nat, x: nat)
    requires Find(a, CLOSE) < 0 && Straddles(a, b, j)
    ensures c < |a| && a[c] == '<' && x <= |b| && forall k | 0 <= k < x :: b[k] != '<'
    ensures Out(a + b, true) == Out(b[x..], false).After("", Dense(a[..c]))
  {
    var s := a + b;
    c := Find(s, CLOSE);
    assert c < |a| < c + |CLOSE| by {
      if c + |CLOSE| <= |a| { MatchInLeft(a, b, CLOSE, c); }
    }
    var e := TailEnd(s, c + |CLOSE|);
    x := e - |a|;
    MatchBracket(s, CLOSE, c);
    assert forall k | 0 <= k < x :: b[k] == s[|a| + k];
    OutClosed(s, c, e, a[..c], b[x..]);
  }

  lemma EagerJoined(a: string, b: string)
    requires Find(a, CLOSE) < 0
    ensures |Joined(a, b, true).thinking| == |Dense(a)| + |Out(b, true).thinking|
  {
    OutEager(a);
    JoinedIs(a, b, true, "", Dense(a), State("", true));
    assert "" + b == b;
  }

  lemma PlainLeadKeeps(b: string, x: nat)
    requires x <= |b| && forall k | 0 <= k < x :: b[k] != '<'
    ensures |Out(b, true).thinking| >= |Out(b[x..], true).thinking|
  {
    assert b[..x] + b[x..] == b;
    LeadPlain(b[..x], b[x..], true);
  }

  lemma BracketCounts(a: string, c: nat)
    requires c < |a| && a[c] == '<'
    ensures |Dense(a)| > |Dense(a[..c])|
  {
    DenseMono(a, c);
    DenseLength(a[c..]);
    assert a[c..][0] == a[c];
  }

  lemma SplitClose(a: string, b: string, j: nat)
    requires Find(a, CLOSE) < 0 && Straddles(a, b, j)
    ensures Less(Out(a + b, true), Joined(a, b, true))
  {
    var c, x := StraddleFound(a, b, j);
    EagerJoined(a, b);
    PlainLeadKeeps(b, x);
    ThinkMore(b[x..]);
    BracketCounts(a, c);
  }

  lemma SplitCloseTail(b: string)
    requires TailEnd(b, 0) > 0
    ensures Less(Out(b[TailEnd(b, 0)..], false), Out(b, false))
  {
    var n := TailEnd(b, 0);
    assert b[..n] + b[n..] == b;
    LeadPlain(b[..n], b[n..], false);
  }

  lemma SplitOpenTail(b: string)
    requires !forall k | 0 <= k < TailEnd(b, 0) :: IsSpace(b[k])
    ensures Less(Out(b[TailEnd(b, 0)..], true), Out(b, true))
  {
    var n := TailEnd(b, 0);
    assert b[..n] + b[n..] == b;
    LeadPlain(b[..n], b[n..], true);
    DenseLength(b[..n]);
    var k :| 0 <= k < n && !IsSpace(b[k]);
    assert b[..n][k] == b[k];
  }

  lemma {:induction false} JoinUnclean(a: string, b: string, m: bool)
    requires !CleanEdge(Scan(a, m).segs, b)
    ensures Less(Out(a + b, m), Joined(a, b, m))
    decreases |a|
  {
    var k := Find(a, if m then CLOSE else OPEN);
    if k < 0 {
      assert m && Scan(a, m).segs == [Eager(a)];
      var j: nat :| j < |a| && Straddles(a, b, j);
      SplitClose(a, b, j);
    } else if m {
      var e := TailEnd(a, k + |CLOSE|);
      EdgeClosed(a, b, k, e, a[e..]);
      if a[e..] == "" {
        SplitAfterClose(a, b, k, e);
      } else {
        JoinUnclean(a[e..], b, false);
        UncleanAfterClose(a, b, k, e, a[e..]);
      }
    } else {
      var e := TailEnd(a, k + |OPEN|);
      EdgeOpened(a, b, k, e, a[e..]);
      if a[e..] == "" {
        SplitAfterOpen(a, b, k, e);
      } else {
        JoinUnclean(a[e..], b, true);
        UncleanAfterOpen(a, b, k, e, a[e..]);
      }
    }
  }

  lemma SplitAfterClose(a: string, b: string, k: nat, e: nat)
    requires k == Find(a, CLOSE) && e == TailEnd(a, k + |CLOSE|) && e == |a|
    requires TailEnd(b, 0) > 0
    ensures Less(Out(a + b, true), Joined(a, b, true))
  {
    var n := TailEnd(b, 0);
    AfterTag(a, b, k, CLOSE);
    OutClosed(a + b, k, e + n, a[..k], b[n..]);
    JoinedAfterClose(a, b, k, e, "");
    JoinEmpty(b, false);
    SplitCloseTail(b);
  }

  lemma SplitAfterOpen(a: string, b: string, k: nat, e: nat)
    requires k == Find(a, OPEN) && e == TailEnd(a, k + |OPEN|) && e == |a|
    requires !forall i | 0 <= i < TailEnd(b, 0) :: IsSpace(b[i])
    ensures Less(Out(a + b, false), Joined(a, b, false))
  {
    var n := TailEnd(b, 0);
    assert "" + b[n..] == b[n..];
    OutAfterOpen(a, b, k, e, n, "");
    JoinedAfterOpen(a, b, k, e, "");
    JoinEmpty(b, true);
    SplitOpenTail(b);
  }

  lemma UncleanAfterClose(a: string, b: string, k: nat, e: nat, rest: string)
    requires k == Find(a, CLOSE) && e == TailEnd(a, k + |CLOSE|) && rest == a[e..] && rest != ""
    requires Less(Out(rest + b, false), Joined(rest, b, false))
    ensures Less(Out(a + b, true), Joined(a, b, true))
  {
    OutAfterClose(a, b, k, e, rest);
    JoinedAfterClose(a, b, k, e, rest);
  }

  lemma UncleanAfterOpen(a: string, b: string, k: nat, e: nat, rest: string)
    requires k == Find(a, OPEN) && e == TailEnd(a, k + |OPEN|) && rest == a[e..] && rest != ""
    requires Less(Out(rest + b, true), Joined(rest, b, true))
    ensures Less(Out(a + b, false), Joined(a, b, false))
  {
    assert b[0..] == b;
    OutAfterOpen(a, b, k, e, 0, rest);
    JoinedAfterOpen(a, b, k, e, rest);
  }

  // ---- any number of chunks ----

  ghost function Whole(st: State, chunks: seq<string>): Outcome {
    Out(st.buffer + Concat(chunks), st.inThink)
  }

  lemma SettledStays(st: State)
    requires Settled(st)
    ensures Out(st.buffer, st.inThink) == Outcome("", "", st)
  {
    if st.buffer != "" {
      if Find(st.buffer, OPEN) >= 0 {
        assert false;
      }
      OutHeld(st.buffer);
    }
  }

  /** Clean chunkings mean what the whole stream means; unclean ones show strictly more. */
  lemma {:induction false} ChunkingDichotomy(st: State, chunks: seq<string>)
    requires Settled(st)
    ensures Clean(st, chunks) ==> RunOut(st, chunks) == Whole(st, chunks)
    ensures !Clean(st, chunks) ==> Less(Whole(st, chunks), RunOut(st, chunks))
    decreases |chunks|
  {
    if chunks == [] {
      assert st.buffer + "" == st.buffer;
      SettledStays(st);
    } else {
      var a, rest := st.buffer + chunks[0], chunks[1..];
      var b := Concat(rest);
      assert st.buffer + Concat(chunks) == a + b;
      var r := Out(a, st.inThink);
      ScanSettles(a, st.inThink);
      ChunkingDichotomy(r.rest, rest);
      if CleanEdge(Scan(a, st.inThink).segs, b) {
        JoinClean(a, b, st.inThink);
      } else {
        JoinUnclean(a, b, st.inThink);
      }
    }
  }

  /** The law and its exact condition on outcomes. */
  lemma OutcomeExact(chunks: seq<string>)
    ensures SameText(RunOut(INITIAL, chunks), Out(Concat(chunks), false)) <==> Clean(INITIAL, chunks)
    ensures Clean(INITIAL, chunks) ==> RunOut(INITIAL, chunks) == Out(Concat(chunks), false)
  {
    ChunkingDichotomy(INITIAL, chunks);
    assert "" + Concat(chunks) == Concat(chunks);
  }
}
