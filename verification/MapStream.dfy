/**
 The WebSocket-style mapping of the same graph events. Unlike the SSE generator it flushes the filter in a `finally`
 step, so no visible text is ever lost, however the stream ends.
 */
module MapStream {
  import opened Common
  import opened TagSearch
  import opened ThinkFilter
  import opened ThinkMeaning
  import opened ThinkLog
  import opened ThinkEvents
  import opened ChatStream
  import opened ChatTheorems
  import opened JsonText
  import opened ChatFrames

  datatype Mapped =
    | Filtered(e: Event)
    | ToolRequest(name: string, id: Option<string>)
    | ToolCalled(name: string, input: Payload)
    | ToolResult(name: string, output: Payload)
    | DoneThread
    | DoneError(error: string)
    | CustomThinking(data: CustomData)

  /** Here values are passed on unserialised, so only a list of content blocks can raise. */
  function MapRaises(e: GraphEvent): Option<string> {
    if e.AIChunk? && e.calls == [] && e.content.Blocks? then Some(e.content.error) else None
  }

  function Wrap(es: seq<Event>): seq<Mapped> {
    seq(|es|, i requires 0 <= i < |es| => Filtered(es[i]))
  }

  function Requests(calls: seq<ToolCall>): seq<Mapped> {
    seq(|calls|, i requires 0 <= i < |calls| => ToolRequest(calls[i].name, calls[i].id))
  }

  /** The mapped events of one graph event that feeds no text. */
  function MapOther(e: GraphEvent): seq<Mapped> {
    match e
    case AIChunk(calls, _) => Requests(calls)
    case ToolStart(name, input) => [ToolCalled(name, input)]
    case ToolEnd(name, output) => [ToolResult(name, output)]
    case ChainEnd(topLevel) => if topLevel then [DoneThread] else []
    case Custom(data) => [CustomThinking(data)]
    case _ => []
  }

  ghost function MapRun(st: State, es: seq<GraphEvent>, ending: Ending): seq<Mapped>
    decreases |es|
  {
    if es == [] then (if ending.Raised? then [DoneError(ending.message)] else []) + Wrap(FlushEvents(st))
    else if MapRaises(es[0]).Some? then [DoneError(MapRaises(es[0]).value)] + Wrap(FlushEvents(st))
    else if EventText(es[0]) == "" then MapOther(es[0]) + MapRun(st, es[1..], ending)
    else
      var r := Scan(st.buffer + EventText(es[0]), st.inThink);
      Wrap(Events(r.segs)) + MapRun(r.rest, es[1..], ending)
  }

  /** One event further: what was due after `out` is due after `out` and what the event maps to. */
  lemma DueStep(out: seq<Mapped>, st: State, next: State, mapped: seq<Mapped>, es: seq<GraphEvent>, i: nat,
                ending: Ending)
    requires i < |es| && MapRaises(es[i]).None?
    requires EventText(es[i]) == "" ==> mapped == MapOther(es[i]) && next == st
    requires EventText(es[i]) != "" ==>
      var r := Scan(st.buffer + EventText(es[i]), st.inThink); mapped == Wrap(Events(r.segs)) && next == r.rest
    ensures out + MapRun(st, es[i..], ending) == out + mapped + MapRun(next, es[i + 1..], ending)
  {
    assert es[i..][0] == es[i] && es[i..][1..] == es[i + 1..];
    Assoc(out, mapped, MapRun(next, es[i + 1..], ending));
  }

  method MapOne(thinkFilter: ThinkTagFilter, e: GraphEvent) returns (mapped: seq<Mapped>)
    requires MapRaises(e).None?
    modifies thinkFilter
    ensures EventText(e) == "" ==> mapped == MapOther(e) && thinkFilter.Abstract() == old(thinkFilter.Abstract())
    ensures EventText(e) != "" ==>
      var r := Scan(old(thinkFilter.buffer) + EventText(e), old(thinkFilter.inThink));
      mapped == Wrap(Events(r.segs)) && thinkFilter.Abstract() == r.rest
  {
    if e.AIChunk? && e.calls == [] && e.content.s != "" {
      var events := thinkFilter.Process(e.content.s);
      mapped := Wrap(events);
    } else {
      mapped := MapOther(e);
    }
  }

  function MapClosing(failure: Option<string>, st: State): seq<Mapped> {
    (if failure.Some? then [DoneError(failure.value)] else []) + Wrap(FlushEvents(st))
  }

  /** When the iteration is over or the next event raises, only the closing is due. */
  lemma DueClosing(out: seq<Mapped>, st: State, es: seq<GraphEvent>, ending: Ending)
    requires es == [] || MapRaises(es[0]).Some?
    ensures var failure := if es != [] then MapRaises(es[0]) else if ending.Raised? then Some(ending.message) else None;
      out + MapRun(st, es, ending) == out + MapClosing(failure, st)
  {
  }

  /** The loop over graph events, up to its end or to the event that raises. */
  method MapLoop(thinkFilter: ThinkTagFilter, es: seq<GraphEvent>, ending: Ending)
    returns (out: seq<Mapped>, failure: Option<string>)
    modifies thinkFilter
    ensures MapRun(old(thinkFilter.Abstract()), es, ending) == out + MapClosing(failure, thinkFilter.Abstract())
  {
    out := [];
    ghost var due := MapRun(thinkFilter.Abstract(), es, ending);
    for i := 0 to |es|
      invariant due == out + MapRun(thinkFilter.Abstract(), es[i..], ending)
    {
      ghost var st := thinkFilter.Abstract();
      if MapRaises(es[i]).Some? {
        DueClosing(out, st, es[i..], ending);
        return out, MapRaises(es[i]);
      }
      var mapped := MapOne(thinkFilter, es[i]);
      DueStep(out, st, thinkFilter.Abstract(), mapped, es, i, ending);
      out := out + mapped;
    }
    failure := if ending.Raised? then Some(ending.message) else None;
    DueClosing(out, thinkFilter.Abstract(), es[|es|..], ending);
  }

  method MapStreamEvents(es: seq<GraphEvent>, ending: Ending) returns (out: seq<Mapped>)
    ensures out == MapRun(INITIAL, es, ending)
  {
    var thinkFilter := new ThinkTagFilter();
    var failure;
    out, failure := MapLoop(thinkFilter, es, ending);
    Assoc(out, if failure.Some? then [DoneError(failure.value)] else [], Wrap(FlushEvents(thinkFilter.Abstract())));
    if failure.Some? {
      out := out + [DoneError(failure.value)];
    } else {
      out := out + [];
    }
    var remaining := thinkFilter.Flush();
    out := out + Wrap(remaining);
  }

  // ---- nothing is lost ----

  /** The events of the filter among the mapped ones. */
  function Heard(ms: seq<Mapped>): seq<Event> {
    if ms == [] then [] else (if ms[0].Filtered? then [ms[0].e] else []) + Heard(ms[1..])
  }

  function MappedText(ms: seq<Mapped>): string {
    ChunkText(Heard(ms))
  }

  /** The texts fed to the filter, up to the event that raises. */
  function MapTexts(es: seq<GraphEvent>): seq<string> {
    if es == [] || MapRaises(es[0]).Some? then []
    else if EventText(es[0]) == "" then MapTexts(es[1..])
    else [EventText(es[0])] + MapTexts(es[1..])
  }

  lemma {:induction false} HeardConcat(x: seq<Mapped>, y: seq<Mapped>)
    ensures Heard(x + y) == Heard(x) + Heard(y)
  {
    if x == [] {
      assert x + y == y;
    } else {
      assert (x + y)[0] == x[0] && (x + y)[1..] == x[1..] + y;
      HeardConcat(x[1..], y);
      Assoc(if x[0].Filtered? then [x[0].e] else [], Heard(x[1..]), Heard(y));
    }
  }

  lemma {:induction false} WrapHeard(es: seq<Event>)
    ensures Heard(Wrap(es)) == es
  {
    if es == [] {
    } else {
      assert Wrap(es)[1..] == Wrap(es[1..]);
      WrapHeard(es[1..]);
      assert [es[0]] + es[1..] == es;
    }
  }

  lemma {:induction false} NothingHeard(ms: seq<Mapped>)
    requires forall i | 0 <= i < |ms| :: !ms[i].Filtered?
    ensures Heard(ms) == []
  {
    if ms == [] {
    } else {
      NothingHeard(ms[1..]);
    }
  }

  lemma HeardBetween(silent: seq<Mapped>, es: seq<Event>, later: seq<Mapped>)
    requires forall i | 0 <= i < |silent| :: !silent[i].Filtered?
    ensures Heard(silent + Wrap(es)) == es && Heard(silent + later) == Heard(later)
    ensures Heard(Wrap(es) + later) == es + Heard(later)
  {
    NothingHeard(silent);
    WrapHeard(es);
    HeardConcat(silent, Wrap(es));
    HeardConcat(silent, later);
    HeardConcat(Wrap(es), later);
    assert [] + es == es && [] + Heard(later) == Heard(later);
  }

  /** Every run, however it ends: the events of the filter come through exactly, in order, the final flush included. */
  lemma {:induction false} HeardExact(st: State, es: seq<GraphEvent>, ending: Ending)
    ensures Heard(MapRun(st, es, ending)) == RunEvents(st, MapTexts(es))
    decreases |es|
  {
    if es == [] || MapRaises(es[0]).Some? {
      HeardClosing(st, es, ending);
    } else if EventText(es[0]) == "" {
      HeardExact(st, es[1..], ending);
      HeardSilent(es[0], MapRun(st, es[1..], ending));
    } else {
      HeardExact(Scan(st.buffer + EventText(es[0]), st.inThink).rest, es[1..], ending);
      assert es == [es[0]] + es[1..];
      HeardFed(st, es[0], es[1..], ending);
    }
  }

  lemma HeardSilent(e: GraphEvent, later: seq<Mapped>)
    ensures Heard(MapOther(e) + later) == Heard(later)
  {
    HeardBetween(MapOther(e), [], later);
  }

  lemma HeardClosing(st: State, es: seq<GraphEvent>, ending: Ending)
    requires es == [] || MapRaises(es[0]).Some?
    ensures Heard(MapRun(st, es, ending)) == FlushEvents(st)
  {
    var failure := if es != [] then MapRaises(es[0]) else if ending.Raised? then Some(ending.message) else None;
    HeardBetween(if failure.Some? then [DoneError(failure.value)] else [], FlushEvents(st), []);
  }

  lemma HeardFed(st: State, e: GraphEvent, later: seq<GraphEvent>, ending: Ending)
    requires EventText(e) != "" && MapRaises(e).None?
    requires var r := Scan(st.buffer + EventText(e), st.inThink);
      Heard(MapRun(r.rest, later, ending)) == RunEvents(r.rest, MapTexts(later))
    ensures Heard(MapRun(st, [e] + later, ending)) == RunEvents(st, [EventText(e)] + MapTexts(later))
  {
    var r := Scan(st.buffer + EventText(e), st.inThink);
    assert ([e] + later)[1..] == later && ([EventText(e)] + MapTexts(later))[1..] == MapTexts(later);
    HeardBetween([], Events(r.segs), MapRun(r.rest, later, ending));
  }

  /** However the stream ends, the chunks carry everything the filter shows, the held suffix included. */
  lemma MapStreamIsLossless(es: seq<GraphEvent>, ending: Ending)
    ensures MappedText(MapRun(INITIAL, es, ending)) == RunOut(INITIAL, MapTexts(es)).Shown()
    ensures NoMatch(Concat(MapTexts(es)), OPEN) ==> MappedText(MapRun(INITIAL, es, ending)) == Concat(MapTexts(es))
  {
    HeardExact(INITIAL, es, ending);
    RunEventsMean(INITIAL, MapTexts(es));
    OpenTagIsLeftmost(MapTexts(es));
  }

  // ---- the two mappings agree ----

  /** The frame by which the chat response says the same as a mapped event that does not come from the filter. */
  function AsFrame(m: Mapped): seq<Frame> {
    match m
    case ToolRequest(name, id) => [ToolInputStart(id, name)]
    case ToolCalled(name, Jsonable(input)) => [ToolInputAvailable(name, input)]
    case ToolResult(name, Jsonable(output)) => [ToolOutputAvailable(name, output)]
    case CustomThinking(Message(s)) => [ReasoningDelta(JStr(s))]
    case CustomThinking(Dict(Jsonable(content))) => [ReasoningDelta(content)]
    case DoneThread => [Finish(Stop)]
    case DoneError(message) => [Error(message)]
    case _ => []
  }

  function AsFrames(ms: seq<Mapped>): seq<Frame> {
    if ms == [] then [] else AsFrame(ms[0]) + AsFrames(ms[1..])
  }

  lemma {:induction false} AsFramesConcat(x: seq<Mapped>, y: seq<Mapped>)
    ensures AsFrames(x + y) == AsFrames(x) + AsFrames(y)
  {
    if x == [] {
      assert x + y == y;
    } else {
      assert (x + y)[0] == x[0] && (x + y)[1..] == x[1..] + y;
      AsFramesConcat(x[1..], y);
      Assoc(AsFrame(x[0]), AsFrames(x[1..]), AsFrames(y));
    }
  }

  lemma OneFrame(m: Mapped)
    ensures AsFrames([m]) == AsFrame(m)
  {
    assert [m][1..] == [] && AsFrame(m) + [] == AsFrame(m);
  }

  lemma {:induction false} WrapSilent(es: seq<Event>)
    ensures AsFrames(Wrap(es)) == []
  {
    if es == [] {
    } else {
      assert Wrap(es)[1..] == Wrap(es[1..]);
      WrapSilent(es[1..]);
    }
  }

  lemma {:induction false} RequestsAgree(calls: seq<ToolCall>)
    ensures AsFrames(Requests(calls)) == DirectIn(ChatFrames.Requests(calls))
  {
    if calls == [] {
    } else {
      assert Requests(calls)[1..] == Requests(calls[1..]);
      assert ChatFrames.Requests(calls)[1..] == ChatFrames.Requests(calls[1..]);
      RequestsAgree(calls[1..]);
    }
  }

  lemma DirectOne(i: Item)
    ensures DirectIn([i]) == (if i.Direct? then [i.f] else []) && DirectIn([Opening, i]) == DirectIn([i])
  {
    assert [i][1..] == [] && [Opening, i][1..] == [i];
  }

  /** One event says the same in both mappings, if it does not raise in the chat response. */
  lemma OtherAgrees(e: GraphEvent)
    requires RaiseOf(e).None?
    ensures AsFrames(MapOther(e)) == DirectIn(SentBy(e))
  {
    var ms, items := MapOther(e), SentBy(e);
    if e.AIChunk? {
      RequestsAgree(e.calls);
    } else {
      if ms != [] { OneFrame(ms[0]); }
      if items != [] { DirectOne(items[|items| - 1]); }
    }
  }

  lemma TailAgrees(st: State, ending: Ending)
    ensures AsFrames(MapRun(st, [], ending)) == if ending.Raised? then [Error(ending.message)] else []
  {
    var head := if ending.Raised? then [DoneError(ending.message)] else [];
    AsFramesConcat(head, Wrap(FlushEvents(st)));
    WrapSilent(FlushEvents(st));
    if ending.Raised? { OneFrame(head[0]); }
  }

  /**
   On every run in which no event raises, the two mappings of the graph events tell the client the same, in the same
   order, besides the text: tool requests, tool inputs and outputs, custom contents, and the end of each turn.
   */
  lemma {:induction false} MappingsAgree(st: State, es: seq<GraphEvent>, ending: Ending)
    requires forall i | 0 <= i < |es| :: RaiseOf(es[i]).None?
    ensures AsFrames(MapRun(st, es, ending)) == Sends(es) + if ending.Raised? then [Error(ending.message)] else []
    decreases |es|
  {
    if es == [] {
      TailAgrees(st, ending);
    } else {
      var e, later := es[0], es[1..];
      var r := Scan(st.buffer + EventText(e), st.inThink);
      assert forall i | 0 <= i < |later| :: later[i] == es[i + 1];
      MappingsAgree(if EventText(e) == "" then st else r.rest, later, ending);
      EventAgrees(e, r.segs, MapRun(if EventText(e) == "" then st else r.rest, later, ending));
      Assoc(DirectIn(SentBy(e)), Sends(later), if ending.Raised? then [Error(ending.message)] else []);
    }
  }

  lemma EventAgrees(e: GraphEvent, segs: seq<Segment>, rest: seq<Mapped>)
    requires RaiseOf(e).None?
    ensures AsFrames((if EventText(e) == "" then MapOther(e) else Wrap(Events(segs))) + rest)
         == DirectIn(SentBy(e)) + AsFrames(rest)
  {
    OtherAgrees(e);
    WrapSilent(Events(segs));
    AsFramesConcat(if EventText(e) == "" then MapOther(e) else Wrap(Events(segs)), rest);
  }
}
