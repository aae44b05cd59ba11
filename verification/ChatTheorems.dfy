/**
 Properties of every run of the SSE generator: finished, failed in any event, cancelled or disconnected. The event
 protocol is kept, and the stored message is what the reader saw.
 */
module ChatTheorems {
  import opened Common
  import opened TagSearch
  import opened ThinkFilter
  import opened ThinkMeaning
  import opened ThinkLog
  import opened ThinkEvents
  import opened JsonText
  import opened ChatStream

  // ---- the event protocol ----

  predicate ReasoningOpen(fs: seq<Frame>) {
    if fs == [] then false
    else
      match fs[|fs| - 1]
      case ReasoningStart => true
      case ReasoningEnd => false
      case _ => ReasoningOpen(fs[..|fs| - 1])
  }

  /** May `f` be sent after the frames `before`? */
  predicate Allowed(before: seq<Frame>, f: Frame) {
    match f
    case Start => before == []
    case StartStep => before == [Start]
    case ReasoningStart => !ReasoningOpen(before)
    case ReasoningDelta(_) => ReasoningOpen(before)
    case ReasoningEnd => ReasoningOpen(before)
    case TextStart => !ReasoningOpen(before) && TextStart !in before
    case TextDelta(s) => !ReasoningOpen(before) && TextStart in before && s != ""
    case Finish(Stop) => !ReasoningOpen(before)
    case _ => true
  }

  predicate IsTerminal(f: Frame) {
    f.Error? || f == Finish(Cancel) || f == Done
  }

  ghost predicate Lawful(fs: seq<Frame>) {
    forall i | 0 <= i < |fs| :: Allowed(fs[..i], fs[i])
  }

  /** Opened once, and closed by one `Done` after at most one failure frame. */
  ghost predicate Ends(fs: seq<Frame>) {
    && |fs| >= 3 && fs[..2] == [Start, StartStep] && fs[|fs| - 1] == Done
    && (forall i | 0 <= i < |fs| - 1 :: fs[i] != Done)
    && (forall i | 0 <= i < |fs| - 2 :: !IsTerminal(fs[i]))
  }

  /** A complete response. */
  ghost predicate Grammar(fs: seq<Frame>) {
    Ends(fs) && Lawful(fs)
  }

  /** What the reader has seen: the concatenation of all text deltas. */
  function DeltaText(fs: seq<Frame>): string {
    if fs == [] then ""
    else DeltaText(fs[..|fs| - 1]) + (if fs[|fs| - 1].TextDelta? then fs[|fs| - 1].text else "")
  }

  // ---- the invariant of the generator ----

  /** The part of the invariant that concerns the frames alone. */
  ghost predicate Begun(fs: seq<Frame>) {
    && |fs| >= 2 && fs[..2] == [Start, StartStep]
    && Lawful(fs)
    && (forall i | 0 <= i < |fs| :: !IsTerminal(fs[i]))
  }

  ghost predicate Open(g: Gen) {
    && Begun(g.out)
    && ReasoningOpen(g.out) == g.hasReasoning
    && (TextStart in g.out) == g.hasText
    && DeltaText(g.out) == Join(g.parts)
  }

  /** What the filter consumed is accounted for by its log, whose visible text has been sent. */
  ghost predicate Logged(g: Gen, fed: string) {
    && Raw(g.log) + g.st.buffer == fed
    && Alternates(g.log, false, g.st.inThink)
    && Settled(g.st)
    && Texts(g.log) == Join(g.parts)
  }

  lemma ExtendLawful(fs: seq<Frame>, f: Frame)
    requires Lawful(fs) && Allowed(fs, f)
    ensures Lawful(fs + [f])
  {
    var gs := fs + [f];
    assert gs[..|fs|] == fs;
    forall i | 0 <= i < |fs| ensures Allowed(gs[..i], gs[i]) {
      assert gs[..i] == fs[..i];
      assert Allowed(fs[..i], fs[i]);
    }
  }

  lemma ExtendBegun(fs: seq<Frame>, f: Frame)
    requires Begun(fs) && Allowed(fs, f) && !IsTerminal(f)
    ensures Begun(fs + [f])
    ensures TextStart in fs + [f] <==> (TextStart in fs || f.TextStart?)
  {
    ExtendLawful(fs, f);
    assert (fs + [f])[..2] == fs[..2];
  }

  /** Frames that carry no text and need no particular state. */
  lemma PutOpen(g: Gen, f: Frame)
    requires Open(g) && Allowed(g.out, f) && !IsTerminal(f)
    requires !f.ReasoningStart? && !f.ReasoningEnd? && !f.TextStart? && !f.TextDelta?
    ensures Open(Put(g, f))
  {
    ExtendBegun(g.out, f);
  }

  lemma OpenReasoningOpen(g: Gen)
    requires Open(g)
    ensures Open(OpenReasoning(g)) && OpenReasoning(g).hasReasoning
  {
    if !g.hasReasoning { ExtendBegun(g.out, ReasoningStart); }
  }

  lemma CloseReasoningOpen(g: Gen)
    requires Open(g)
    ensures Open(CloseReasoning(g)) && !CloseReasoning(g).hasReasoning
  {
    if g.hasReasoning { ExtendBegun(g.out, ReasoningEnd); }
  }

  lemma OpenTextOpen(g: Gen)
    requires Open(g) && !g.hasReasoning
    ensures Open(OpenText(g)) && OpenText(g).hasText && !OpenText(g).hasReasoning
  {
    if !g.hasText { ExtendBegun(g.out, TextStart); }
  }

  lemma DeltaOpen(g: Gen, s: string)
    requires Open(g) && !g.hasReasoning && g.hasText && s != ""
    ensures Open(Put(g, TextDelta(s)).(parts := g.parts + [s]))
  {
    ExtendBegun(g.out, TextDelta(s));
  }

  lemma EmitOpen(g: Gen, e: Event)
    requires Open(g)
    ensures Open(Emit(g, e)) && Emit(g, e).st == g.st && Emit(g, e).log == g.log
    ensures Join(Emit(g, e).parts) == Join(g.parts) + if e.Chunk? then e.content else ""
  {
    if e.content != "" {
      match e
      case Thinking(s) => ThinkingOpen(g, s);
      case Chunk(s) => ChunkOpen(g, s);
    }
  }

  lemma ThinkingOpen(g: Gen, s: string)
    requires Open(g)
    ensures var h := Put(OpenReasoning(g), ReasoningDelta(JStr(s)));
      Open(h) && h.st == g.st && h.log == g.log && h.parts == g.parts
  {
    OpenReasoningOpen(g);
    PutOpen(OpenReasoning(g), ReasoningDelta(JStr(s)));
  }

  lemma ChunkOpen(g: Gen, s: string)
    requires Open(g) && s != ""
    ensures var k := OpenText(CloseReasoning(g));
      var h := Put(k, TextDelta(s)).(parts := g.parts + [s]);
      Open(h) && k.st == g.st && k.log == g.log && k.parts == g.parts && Join(h.parts) == Join(g.parts) + s
  {
    CloseReasoningOpen(g);
    OpenTextOpen(CloseReasoning(g));
    DeltaOpen(OpenText(CloseReasoning(g)), s);
  }

  lemma {:induction false} EmitAllOpen(g: Gen, es: seq<Event>)
    requires Open(g)
    ensures var h := EmitAll(g, es);
      Open(h) && h.st == g.st && h.log == g.log && Join(h.parts) == Join(g.parts) + ChunkText(es)
    decreases |es|
  {
    if es == [] {
    } else {
      EmitOpen(g, es[0]);
      EmitAllOpen(Emit(g, es[0]), es[1..]);
      Assoc(Join(g.parts), if es[0].Chunk? then es[0].content else "", ChunkText(es[1..]));
    }
  }

  lemma FeedKeeps(g: Gen, s: string, fed: string)
    requires Open(g) && Logged(g, fed)
    ensures Open(Feed(g, s)) && Logged(Feed(g, s), fed + s)
  {
    var r := Scan(g.st.buffer + s, g.st.inThink);
    var h := g.(st := r.rest, log := g.log + r.segs);
    EmitAllOpen(h, Events(r.segs));
    EventsMean(r.segs);
    TextsConcat(g.log, r.segs);
    RawConcat(g.log, r.segs);
    ScanSettles(g.st.buffer + s, g.st.inThink);
    ScanAccounts(g.st.buffer + s, g.st.inThink);
    AlternatesConcat(g.log, r.segs, false, g.st.inThink, r.rest.inThink);
    Assoc(Raw(g.log), Raw(r.segs), r.rest.buffer);
    Assoc(Raw(g.log), g.st.buffer, s);
  }

  lemma FlushSpeaks(st: State)
    requires Settled(st)
    ensures var segs := FlushLog(st);
      && Raw(segs) == st.buffer && Texts(segs) == st.buffer && ChunkText(FlushEvents(st)) == st.buffer
      && Alternates(segs, st.inThink, st.inThink)
  {
    var s := st.buffer;
    assert [Text(s)][1..] == [] && [Chunk(s)][1..] == [];
  }

  lemma FlushLogged(g: Gen, fed: string)
    requires Logged(g, fed)
    ensures var segs := FlushLog(g.st);
      && Raw(g.log + segs) == fed && Texts(g.log + segs) == Join(g.parts) + g.st.buffer
      && Alternates(g.log + segs, false, g.st.inThink)
  {
    var segs := FlushLog(g.st);
    FlushSpeaks(g.st);
    TextsConcat(g.log, segs);
    RawConcat(g.log, segs);
    AlternatesConcat(g.log, segs, false, g.st.inThink, g.st.inThink);
  }

  ghost function Flushed(g: Gen): Gen {
    EmitAll(g.(st := State("", g.st.inThink), log := g.log + FlushLog(g.st)), FlushEvents(g.st))
  }

  lemma FlushKeeps(g: Gen, fed: string)
    requires Open(g) && Logged(g, fed)
    ensures Open(Flushed(g)) && Logged(Flushed(g), fed)
    ensures Flushed(g).st == State("", g.st.inThink) && Join(Flushed(g).parts) == Join(g.parts) + g.st.buffer
  {
    FlushLogged(g, fed);
    FlushSpeaks(g.st);
    EmitAllOpen(g.(st := State("", g.st.inThink), log := g.log + FlushLog(g.st)), FlushEvents(g.st));
    assert fed + "" == fed;
  }

  /** At the end of the turn the held suffix is shown. */
  lemma FinishKeeps(g: Gen, fed: string)
    requires Open(g) && Logged(g, fed)
    ensures Open(FinishTurn(g)) && Logged(FinishTurn(g), fed)
    ensures FinishTurn(g).st == State("", g.st.inThink) && Join(FinishTurn(g).parts) == Join(g.parts) + g.st.buffer
  {
    FlushKeeps(g, fed);
    ClosedAndFinished(Flushed(g));
    var h := Put(CloseReasoning(Flushed(g)), Finish(Stop));
    assert FinishTurn(g) == h;
  }

  lemma ClosedAndFinished(k: Gen)
    requires Open(k)
    ensures var h := Put(CloseReasoning(k), Finish(Stop));
      Open(h) && h.st == k.st && h.log == k.log && h.parts == k.parts
  {
    CloseReasoningOpen(k);
    PutOpen(CloseReasoning(k), Finish(Stop));
  }

  lemma {:induction false} CallsOpen(g: Gen, calls: seq<ToolCall>)
    requires Open(g)
    ensures Open(g.(out := g.out + CallFrames(calls)))
  {
    if calls == [] {
      assert g.out + [] == g.out;
    } else {
      var n := |calls| - 1;
      CallsOpen(g, calls[..n]);
      var f := ToolInputStart(calls[n].id, calls[n].name);
      PutOpen(g.(out := g.out + CallFrames(calls[..n])), f);
      CallFramesSnoc(g.out, calls, n);
    }
  }

  lemma CallFramesSnoc(fs: seq<Frame>, calls: seq<ToolCall>, n: nat)
    requires n == |calls| - 1
    ensures fs + CallFrames(calls) == fs + CallFrames(calls[..n]) + [ToolInputStart(calls[n].id, calls[n].name)]
  {
  }

  // ---- every run ----

  /** The text an event feeds to the filter. */
  function EventText(e: GraphEvent): string {
    if e.AIChunk? && e.calls == [] && e.content.Str? then e.content.s else ""
  }

  function RaiseOf(e: GraphEvent): Option<string> {
    match e
    case AIChunk(calls, content) => if calls == [] && content.Blocks? then Some(content.error) else None
    case ToolStart(_, Unserializable(error)) => Some(error)
    case ToolEnd(_, Unserializable(error)) => Some(error)
    case Custom(data) => CustomRaise(data)
    case _ => None
  }

  /** The text of a run, up to the event that raises. */
  function RunText(es: seq<GraphEvent>): string {
    if es == [] || RaiseOf(es[0]).Some? then "" else EventText(es[0]) + RunText(es[1..])
  }

  /** A run ends with the first event that raises, or with its iteration. */
  function EndOf(es: seq<GraphEvent>, ending: Ending): Ending {
    if es == [] then ending else if RaiseOf(es[0]).Some? then Raised(RaiseOf(es[0]).value) else EndOf(es[1..], ending)
  }

  lemma ReasonOpen(g: Gen, v: Json)
    requires Open(g)
    ensures Open(Put(OpenReasoning(g), ReasoningDelta(v)))
  {
    OpenReasoningOpen(g);
    PutOpen(OpenReasoning(g), ReasoningDelta(v));
  }

  function CustomRaise(data: CustomData): Option<string> {
    if data.Dict? && data.content.Unserializable? then Some(data.content.error) else None
  }

  lemma CustomStep(g: Gen, data: CustomData)
    requires Open(g)
    ensures var h := HandleCustom(g, data);
      h.raised == CustomRaise(data) && Open(h.g) && h.g.st == g.st && h.g.log == g.log && h.g.parts == g.parts
  {
    OpenReasoningOpen(g);
    if data.Message? {
      ReasonOpen(g, JStr(data.s));
    } else if data.Dict? && data.content.Jsonable? {
      ReasonOpen(g, data.content.value);
    }
  }

  /** Events that feed no text and do not end the turn leave the filter alone. */
  lemma SideStep(g: Gen, e: GraphEvent)
    requires Open(g) && EventText(e) == "" && e != ChainEnd(true)
    ensures var h := Handle(g, e);
      && h.raised == RaiseOf(e)
      && Open(h.g) && h.g.st == g.st && h.g.log == g.log && h.g.parts == g.parts
  {
    if e.Custom? {
      CustomStep(g, e.data);
    } else if e.AIChunk? {
      CallsOpen(g, e.calls);
    } else {
      ToolStep(g, e);
    }
  }

  lemma ToolStep(g: Gen, e: GraphEvent)
    requires Open(g) && !e.AIChunk? && !e.Custom? && e != ChainEnd(true)
    ensures var h := Handle(g, e);
      && h.raised == RaiseOf(e)
      && Open(h.g) && h.g.st == g.st && h.g.log == g.log && h.g.parts == g.parts
  {
    if e.ToolStart? && e.input.Jsonable? {
      PutOpen(g, ToolInputAvailable(e.name, e.input.value));
    } else if e.ToolEnd? && e.output.Jsonable? {
      PutOpen(g, ToolOutputAvailable(e.name, e.output.value));
    }
  }

  lemma HandleText(g: Gen, e: GraphEvent, fed: string)
    requires Open(g) && Logged(g, fed) && EventText(e) != ""
    ensures Handle(g, e).raised.None? && Open(Handle(g, e).g) && Logged(Handle(g, e).g, fed + EventText(e))
  {
    FeedKeeps(g, e.content.s, fed);
  }

  lemma HandleSilent(g: Gen, e: GraphEvent, fed: string)
    requires Open(g) && Logged(g, fed) && EventText(e) == ""
    ensures Handle(g, e).raised == RaiseOf(e) && Open(Handle(g, e).g) && Logged(Handle(g, e).g, fed)
  {
    if e == ChainEnd(true) {
      FinishKeeps(g, fed);
    } else {
      SideStep(g, e);
      LoggedSame(g, Handle(g, e).g, fed);
    }
  }

  lemma LoggedSame(g: Gen, h: Gen, fed: string)
    requires Logged(g, fed) && h.st == g.st && h.log == g.log && h.parts == g.parts
    ensures Logged(h, fed)
  {
  }

  lemma HandleKeeps(g: Gen, e: GraphEvent, fed: string)
    requires Open(g) && Logged(g, fed)
    ensures var h := Handle(g, e);
      && h.raised == RaiseOf(e)
      && Open(h.g)
      && Logged(h.g, if h.raised.Some? then fed else fed + EventText(e))
  {
    if EventText(e) != "" {
      HandleText(g, e, fed);
    } else {
      HandleSilent(g, e, fed);
      assert fed + "" == fed;
    }
  }

  lemma {:induction false} IterateKeeps(g: Gen, es: seq<GraphEvent>, ending: Ending, fed: string)
    requires Open(g) && Logged(g, fed)
    ensures var (h, end) := Iterate(g, es, ending); Open(h) && Logged(h, fed + RunText(es)) && end == EndOf(es, ending)
    decreases |es|
  {
    assert fed + "" == fed;
    if es == [] {
    } else {
      HandleKeeps(g, es[0], fed);
      if RaiseOf(es[0]).None? {
        IterateKeeps(Handle(g, es[0]).g, es[1..], ending, fed + EventText(es[0]));
        Assoc(fed, EventText(es[0]), RunText(es[1..]));
      }
    }
  }

  lemma DoneEnds(fs: seq<Frame>)
    requires |fs| >= 2 && fs[..2] == [Start, StartStep]
    requires forall i | 0 <= i < |fs| - 1 :: !IsTerminal(fs[i])
    requires fs[|fs| - 1] != Done
    ensures Ends(fs + [Done])
  {
    assert (fs + [Done])[..2] == fs[..2];
  }

  /** A lawful stream may stop at any point: the terminator, and a failure frame before it, are always allowed. */
  lemma CloseDone(fs: seq<Frame>)
    requires |fs| >= 2 && fs[..2] == [Start, StartStep] && Lawful(fs)
    requires forall i | 0 <= i < |fs| - 1 :: !IsTerminal(fs[i])
    requires fs[|fs| - 1] != Done
    ensures Grammar(fs + [Done]) && DeltaText(fs + [Done]) == DeltaText(fs)
  {
    ExtendLawful(fs, Done);
    DoneEnds(fs);
  }

  lemma CloseFailed(fs: seq<Frame>, f: Frame)
    requires Begun(fs) && (f == Finish(Cancel) || f.Error?)
    ensures Grammar(fs + [f, Done]) && DeltaText(fs + [f, Done]) == DeltaText(fs)
  {
    ExtendLawful(fs, f);
    assert (fs + [f])[..2] == fs[..2];
    CloseDone(fs + [f]);
    assert fs + [f, Done] == fs + [f] + [Done];
  }

  lemma CloseGrammar(g: Gen, end: Ending)
    requires Open(g)
    ensures Grammar(g.out + Closing(end)) && DeltaText(g.out + Closing(end)) == Join(g.parts)
  {
    match end
    case Cancelled => CloseFailed(g.out, Finish(Cancel));
    case Raised(m) => CloseFailed(g.out, Error(m));
    case _ => CloseDone(g.out);
  }

  lemma BeginOpen()
    ensures Open(BEGIN) && Logged(BEGIN, "") && Join(BEGIN.parts) == ""
  {
  }

  /** The text deltas of a whole response are what the generator collected. */
  lemma WholeRun(es: seq<GraphEvent>, ending: Ending)
    ensures var (g, end) := Iterate(BEGIN, es, ending);
      && Open(g) && Logged(g, RunText(es)) && end == EndOf(es, ending)
      && Grammar(g.out + Closing(end)) && DeltaText(g.out + Closing(end)) == Join(g.parts)
  {
    BeginOpen();
    IterateKeeps(BEGIN, es, ending, "");
    assert "" + RunText(es) == RunText(es);
    var (g, end) := Iterate(BEGIN, es, ending);
    CloseGrammar(g, end);
  }

  /**
   Every run keeps the protocol; the stored message is exactly the concatenation of all text deltas, which is the
   visible text of a log that, with at most five held characters, is the text the model streamed.
   */
  lemma EveryRun(es: seq<GraphEvent>, ending: Ending)
    ensures var (g, end) := Iterate(BEGIN, es, ending);
      var frames := g.out + Closing(end);
      && Grammar(frames) && end == EndOf(es, ending)
      && Stored(g.parts) == (if DeltaText(frames) == "" then None else Some(DeltaText(frames)))
      && DeltaText(frames) == Texts(g.log)
      && Raw(g.log) + g.st.buffer == RunText(es) && |g.st.buffer| < |OPEN|
      && Alternates(g.log, false, g.st.inThink)
  {
    WholeRun(es, ending);
  }

  // ---- when nothing is lost ----

  predicate Quiet(es: seq<GraphEvent>) {
    forall j | 0 <= j < |es| :: EventText(es[j]) == ""
  }

  /** A top-level chain end is reached, and no content follows it. */
  predicate EndsFlushed(es: seq<GraphEvent>) {
    es != [] && RaiseOf(es[0]).None? && ((es[0] == ChainEnd(true) && Quiet(es[1..])) || EndsFlushed(es[1..]))
  }

  lemma {:induction false} QuietStaysEmpty(g: Gen, es: seq<GraphEvent>, ending: Ending)
    requires Open(g) && g.st.buffer == "" && Quiet(es)
    ensures Iterate(g, es, ending).0.st.buffer == ""
    decreases |es|
  {
    if es == [] {
    } else {
      QuietStep(g, es[0]);
      if Handle(g, es[0]).raised.None? {
        assert forall j | 0 <= j < |es[1..]| :: es[1..][j] == es[j + 1];
        QuietStaysEmpty(Handle(g, es[0]).g, es[1..], ending);
      }
    }
  }

  lemma QuietStep(g: Gen, e: GraphEvent)
    requires Open(g) && g.st.buffer == "" && EventText(e) == ""
    ensures var h := Handle(g, e); Open(h.g) && h.g.st.buffer == ""
  {
    if e == ChainEnd(true) {
      assert Flushed(g) == g.(log := g.log + FlushLog(g.st), st := State("", g.st.inThink));
      ClosedAndFinished(Flushed(g));
    } else {
      SideStep(g, e);
    }
  }

  lemma {:induction false} FlushedEnd(g: Gen, es: seq<GraphEvent>, ending: Ending, fed: string)
    requires Open(g) && Logged(g, fed) && EndsFlushed(es)
    ensures Iterate(g, es, ending).0.st.buffer == ""
    decreases |es|
  {
    HandleKeeps(g, es[0], fed);
    var h := Handle(g, es[0]).g;
    if es[0] == ChainEnd(true) && Quiet(es[1..]) {
      FinishKeeps(g, fed);
      QuietStaysEmpty(h, es[1..], ending);
    } else {
      FlushedEnd(h, es[1..], ending, fed + EventText(es[0]));
    }
  }

  /** Nothing the model streamed is missing once a top-level chain end follows the last content. */
  lemma NothingLost(es: seq<GraphEvent>, ending: Ending)
    requires EndsFlushed(es)
    ensures Raw(Iterate(BEGIN, es, ending).0.log) == RunText(es)
  {
    FlushedEnd(BEGIN, es, ending, "");
    EveryRun(es, ending);
    var g := Iterate(BEGIN, es, ending).0;
    assert Raw(g.log) + "" == Raw(g.log);
  }

  lemma {:induction false} PlainLog(segs: seq<Segment>, after: bool, tail: string)
    requires Alternates(segs, false, after) && NoMatch(Raw(segs) + tail, OPEN)
    ensures Texts(segs) == Raw(segs)
  {
    if segs == [] {
    } else {
      var s, rest := segs[0].s, Raw(segs[1..]);
      Assoc(s, rest, tail);
      if segs[0].OpenTag? {
        MatchInLeft(s, rest + tail, OPEN, 0);
      } else {
        forall j: nat | j <= |rest + tail| ensures !MatchAt(rest + tail, OPEN, j) {
          MatchInRight(s, rest + tail, OPEN, j);
        }
        PlainLog(segs[1..], after, tail);
      }
    }
  }

  /** A reply without an opening tag is stored as it was streamed, up to the held suffix, on every run. */
  lemma PlainReply(es: seq<GraphEvent>, ending: Ending)
    requires NoMatch(RunText(es), OPEN)
    ensures var (g, end) := Iterate(BEGIN, es, ending);
      DeltaText(g.out + Closing(end)) + g.st.buffer == RunText(es)
  {
    EveryRun(es, ending);
    var g := Iterate(BEGIN, es, ending).0;
    PlainLog(g.log, g.st.inThink, g.st.buffer);
  }
}
