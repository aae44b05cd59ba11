/**
 What a reader of the filter's events sees, and chunking-invariance stated over the events that `process` and `flush`
 return.
 */
module ThinkEvents {
  import opened Common
  import opened TagSearch
  import opened ThinkFilter
  import opened ThinkMeaning
  import opened ThinkExact

  function ChunkText(es: seq<Event>): string {
    if es == [] then "" else (if es[0].Chunk? then es[0].content else "") + ChunkText(es[1..])
  }

  function ThinkingText(es: seq<Event>): string {
    if es == [] then "" else (if es[0].Thinking? then es[0].content else "") + ThinkingText(es[1..])
  }

  lemma {:induction false} TextsOfEvents(x: seq<Event>, y: seq<Event>)
    ensures ChunkText(x + y) == ChunkText(x) + ChunkText(y)
    ensures ThinkingText(x + y) == ThinkingText(x) + ThinkingText(y)
  {
    if x == [] {
      assert x + y == y;
    } else {
      assert (x + y)[0] == x[0] && (x + y)[1..] == x[1..] + y;
      TextsOfEvents(x[1..], y);
    }
  }

  // ---- stripping removes whitespace only ----

  lemma {:induction false} DenseStripLeft(s: string)
    ensures Dense(StripLeft(s)) == Dense(s)
  {
    if s == "" || !IsSpace(s[0]) {
    } else {
      DenseStripLeft(s[1..]);
    }
  }

  lemma {:induction false} DenseStripRight(s: string)
    ensures Dense(StripRight(s)) == Dense(s)
  {
    if s == "" || !IsSpace(s[|s| - 1]) {
    } else {
      var n := |s| - 1;
      DenseStripRight(s[..n]);
      DenseConcat(s[..n], [s[n]]);
      assert s[..n] + [s[n]] == s && [s[n]][1..] == "";
    }
  }

  lemma DenseStrip(s: string)
    ensures Dense(Strip(s)) == Dense(s)
  {
    DenseStripLeft(s);
    DenseStripRight(StripLeft(s));
  }

  // ---- the events of a log carry its visible text and its thinking text ----

  lemma EventOfMeans(g: Segment)
    ensures ChunkText(EventOf(g)) == TextOf(g) && Dense(ThinkingText(EventOf(g))) == ThoughtOf(g)
  {
    var es := EventOf(g);
    if es != [] { assert es[1..] == []; }
    assert g.s + "" == g.s;
    if g.Thought? {
      DenseStrip(g.s);
      assert Strip(g.s) + "" == Strip(g.s);
    }
  }

  lemma {:induction false} EventsMean(segs: seq<Segment>)
    ensures ChunkText(Events(segs)) == Texts(segs) && Dense(ThinkingText(Events(segs))) == Thoughts(segs)
  {
    if segs == [] {
    } else {
      var x, y := EventOf(segs[0]), Events(segs[1..]);
      EventOfMeans(segs[0]);
      EventsMean(segs[1..]);
      TextsOfEvents(x, y);
      DenseConcat(ThinkingText(x), ThinkingText(y));
    }
  }

  // ---- a whole stream ----

  /** The events of one `process` per chunk and a final `flush`. */
  ghost function RunEvents(st: State, chunks: seq<string>): seq<Event>
    decreases |chunks|
  {
    if chunks == [] then FlushEvents(st)
    else
      var r := Scan(st.buffer + chunks[0], st.inThink);
      Events(r.segs) + RunEvents(r.rest, chunks[1..])
  }

  method FilterStream(chunks: seq<string>) returns (events: seq<Event>)
    ensures events == RunEvents(INITIAL, chunks)
  {
    var thinkFilter := new ThinkTagFilter();
    events := [];
    for i := 0 to |chunks|
      invariant RunEvents(INITIAL, chunks) == events + RunEvents(thinkFilter.Abstract(), chunks[i..])
    {
      ghost var st := thinkFilter.Abstract();
      assert chunks[i..][0] == chunks[i] && chunks[i..][1..] == chunks[i + 1..];
      var more := thinkFilter.Process(chunks[i]);
      Assoc(events, more, RunEvents(thinkFilter.Abstract(), chunks[i + 1..]));
      events := events + more;
    }
    var last := thinkFilter.Flush();
    events := events + last;
  }

  /** The events carry the outcome: what is shown after the final flush, and the thinking text up to whitespace. */
  lemma {:induction false} RunEventsMean(st: State, chunks: seq<string>)
    requires Settled(st)
    ensures ChunkText(RunEvents(st, chunks)) == RunOut(st, chunks).Shown()
    ensures Dense(ThinkingText(RunEvents(st, chunks))) == RunOut(st, chunks).thinking
    decreases |chunks|
  {
    if chunks == [] {
      assert "" + st.buffer == st.buffer;
    } else {
      var r := Scan(st.buffer + chunks[0], st.inThink);
      var x, y := Events(r.segs), RunEvents(r.rest, chunks[1..]);
      ScanSettles(st.buffer + chunks[0], st.inThink);
      RunEventsMean(r.rest, chunks[1..]);
      EventsMean(r.segs);
      TextsOfEvents(x, y);
      DenseConcat(ThinkingText(x), ThinkingText(y));
      var o := RunOut(r.rest, chunks[1..]);
      Assoc(Texts(r.segs), o.visible, o.rest.buffer);
    }
  }

  /** Two event sequences show the same text and think the same text up to whitespace. */
  ghost predicate SameReading(x: seq<Event>, y: seq<Event>) {
    ChunkText(x) == ChunkText(y) && Dense(ThinkingText(x)) == Dense(ThinkingText(y))
  }

  /**
   Chunking-invariance and its exact condition, for every stream and every chunking of it: the events of the chunked run
   read like those of one `process` on the whole stream if and only if every boundary is clean.
   */
  lemma ChunkingExact(chunks: seq<string>)
    ensures SameReading(RunEvents(INITIAL, chunks), RunEvents(INITIAL, [Concat(chunks)])) <==> Clean(INITIAL, chunks)
  {
    var s := Concat(chunks);
    RunEventsMean(INITIAL, chunks);
    RunEventsMean(INITIAL, [s]);
    WholeRun(s);
    OutcomeExact(chunks);
  }

  lemma WholeRun(s: string)
    ensures RunOut(INITIAL, [s]) == Out(s, false)
  {
    var r := Out(s, false);
    assert "" + s == s && [s][1..] == [];
    assert RunOut(r.rest, []).After(r.visible, r.thinking) == r by {
      assert r.visible + "" == r.visible && r.thinking + "" == r.thinking;
    }
  }

  // ---- a stream that violates it ----

  /** A closing tag cut in two is not recognised: the same stream, read in two ways. */
  lemma SplitCloseTagExample()
    ensures var chunks := ["<think"] + (["</th"] + ["ink"]);
      && Concat(chunks) == "<think</think"
      && !SameReading(RunEvents(INITIAL, chunks), RunEvents(INITIAL, ["<think</think"]))
  {
    var chunks := ["<think"] + (["</th"] + ["ink"]);
    assert Concat(["ink"]) == "ink";
    assert Concat(["</th"] + ["ink"]) == "</think" by { assert (["</th"] + ["ink"])[1..] == ["ink"]; }
    assert Concat(chunks) == "<think</think" by { assert chunks[1..] == ["</th"] + ["ink"]; }
    OpenScanned();
    assert "</th" + "ink" == "</think" && MatchAt("</think", CLOSE, 0);
    CutCloseUnclean("</th", "ink");
    assert "" + "<think" == "<think";
    ChunkingExact(chunks);
  }

  lemma OpenScanned()
    ensures Scan("<think", false).rest == State("", true)
  {
    assert MatchAt("<think", OPEN, 0);
    assert Find("<think", OPEN) == 0 && TailEnd("<think", 6) == 6 && "<think"[6..] == "";
  }

  /** Any cut inside a closing tag is unclean. */
  lemma CutCloseUnclean(p: string, q: string)
    requires 0 < |p| < |CLOSE| && MatchAt(p + q, CLOSE, 0)
    ensures !Clean(State("", true), [p] + [q])
  {
    assert "" + p == p && Concat([q]) == q;
    assert Find(p, CLOSE) == -1;
    assert Scan(p, true).segs == [Eager(p)];
    assert Straddles(p, q, 0);
  }
}
