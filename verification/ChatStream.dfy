/**
 The SSE chat generator: the local state of one streaming response, the frames it yields, and the assistant message it
 stores. `Handle` says what one graph event does; the class below is the generator itself, proved to do exactly that.
 Exceptions can arise at every await and in every expression that can raise; a run ends in one of four ways.
 */
module ChatStream {
  import opened Common
  import opened ThinkFilter
  import opened JsonText

  /** A value passed to `json.dumps`: a JSON value, or the error it raises. */
  datatype Payload = Jsonable(value: Json) | Unserializable(error: string)

  /** A call as the model asked for it; some providers send no id. */
  datatype ToolCall = ToolCall(id: Option<string>, name: string)

  /** Message content is a string, or a list of blocks that `process` cannot append to its buffer. */
  datatype Content = Str(s: string) | Blocks(error: string)

  datatype CustomData = Message(s: string) | Dict(content: Payload) | OtherData

  datatype GraphEvent =
    | NotAIChunk
    | AIChunk(calls: seq<ToolCall>, content: Content)
    | ToolStart(name: string, input: Payload)
    | ToolEnd(name: string, output: Payload)
    | ChainEnd(topLevel: bool)
    | Custom(data: CustomData)
    | Unmapped

  datatype Reason = Stop | Cancel

  datatype Frame =
    | Start | StartStep
    | ToolInputStart(id: Option<string>, name: string)
    | ToolInputAvailable(name: string, input: Json)
    | ToolOutputAvailable(name: string, output: Json)
    | ReasoningStart | ReasoningDelta(delta: Json) | ReasoningEnd
    | TextStart | TextDelta(text: string)
    | Finish(reason: Reason)
    | Error(message: string)
    | Done

  /** How the iteration over graph events ends, unless handling an event raises first. */
  datatype Ending = Exhausted | Disconnected | Cancelled | Raised(message: string)

  /** The generator's local state; `log` is the filter's log of everything it consumed. */
  datatype Gen = Gen(st: State, log: seq<Segment>, hasText: bool, hasReasoning: bool, parts: seq<string>,
                     out: seq<Frame>)

  const BEGIN := Gen(INITIAL, [], false, false, [], [Start, StartStep])

  function Join(parts: seq<string>): string {
    if parts == [] then "" else Join(parts[..|parts| - 1]) + parts[|parts| - 1]
  }

  // ---- what one graph event does ----

  function OpenReasoning(g: Gen): Gen {
    if g.hasReasoning then g else g.(hasReasoning := true, out := g.out + [ReasoningStart])
  }

  function CloseReasoning(g: Gen): Gen {
    if g.hasReasoning then g.(hasReasoning := false, out := g.out + [ReasoningEnd]) else g
  }

  function OpenText(g: Gen): Gen {
    if g.hasText then g else g.(hasText := true, out := g.out + [TextStart])
  }

  function Put(g: Gen, f: Frame): Gen {
    g.(out := g.out + [f])
  }

  function Emit(g: Gen, e: Event): Gen {
    if e.content == "" then g
    else
      match e
      case Thinking(s) => Put(OpenReasoning(g), ReasoningDelta(JStr(s)))
      case Chunk(s) =>
        var h := Put(OpenText(CloseReasoning(g)), TextDelta(s));
        h.(parts := h.parts + [s])
  }

  function EmitAll(g: Gen, es: seq<Event>): Gen
    decreases |es|
  {
    if es == [] then g else EmitAll(Emit(g, es[0]), es[1..])
  }

  function CallFrames(calls: seq<ToolCall>): seq<Frame> {
    seq(|calls|, i requires 0 <= i < |calls| => ToolInputStart(calls[i].id, calls[i].name))
  }

  ghost function Feed(g: Gen, s: string): Gen {
    var r := Scan(g.st.buffer + s, g.st.inThink);
    EmitAll(g.(st := r.rest, log := g.log + r.segs), Events(r.segs))
  }

  /** What `flush` consumes. */
  function FlushLog(st: State): seq<Segment> {
    if st.buffer == "" then [] else if st.inThink then [Eager(st.buffer)] else [Text(st.buffer)]
  }

  /** The closing steps at the end of the top-level chain. */
  ghost function FinishTurn(g: Gen): Gen {
    var h := g.(st := State("", g.st.inThink), log := g.log + FlushLog(g.st));
    Put(CloseReasoning(EmitAll(h, FlushEvents(g.st))), Finish(Stop))
  }

  /** The state after an event, and the error when handling it raised. */
  datatype Handled = Handled(g: Gen, raised: Option<string>)

  function HandleCustom(g: Gen, data: CustomData): Handled {
    var h := OpenReasoning(g);
    match data
    case Message(s) => Handled(Put(h, ReasoningDelta(JStr(s))), None)
    case OtherData => Handled(h, None)
    case Dict(content) =>
      if content.Jsonable? then Handled(Put(h, ReasoningDelta(content.value)), None)
      else Handled(h, Some(content.error))
  }

  ghost function Handle(g: Gen, e: GraphEvent): Handled {
    match e
    case NotAIChunk => Handled(g, None)
    case Unmapped => Handled(g, None)
    case AIChunk(calls, content) =>
      if calls != [] then Handled(g.(out := g.out + CallFrames(calls)), None)
      else if content.Blocks? then Handled(g, Some(content.error))
      else if content.s == "" then Handled(g, None)
      else Handled(Feed(g, content.s), None)
    case ToolStart(name, input) =>
      if input.Jsonable? then Handled(Put(g, ToolInputAvailable(name, input.value)), None)
      else Handled(g, Some(input.error))
    case ToolEnd(name, output) =>
      if output.Jsonable? then Handled(Put(g, ToolOutputAvailable(name, output.value)), None)
      else Handled(g, Some(output.error))
    case ChainEnd(topLevel) => Handled(if topLevel then FinishTurn(g) else g, None)
    case Custom(data) => HandleCustom(g, data)
  }

  /** The iteration: events are handled until one raises, or the iteration ends. */
  ghost function Iterate(g: Gen, es: seq<GraphEvent>, ending: Ending): (Gen, Ending)
    decreases |es|
  {
    if es == [] then (g, ending)
    else
      var h := Handle(g, es[0]);
      match h.raised
      case Some(m) => (h.g, Raised(m))
      case None => Iterate(h.g, es[1..], ending)
  }

  function Closing(ending: Ending): seq<Frame> {
    match ending
    case Exhausted => [Done]
    case Disconnected => [Done]
    case Cancelled => [Finish(Cancel), Done]
    case Raised(m) => [Error(m), Done]
  }

  function Stored(parts: seq<string>): Option<string> {
    if Join(parts) == "" then None else Some(Join(parts))
  }

  // ---- the generator ----

  method JoinParts(parts: seq<string>) returns (s: string)
    ensures s == Join(parts)
  {
    s := "";
    for k := 0 to |parts|
      invariant s == Join(parts[..k])
    {
      assert parts[..k + 1][..k] == parts[..k];
      s := s + parts[k];
    }
    assert parts[..|parts|] == parts;
  }

  class SseGenerator {
    var thinkFilter: ThinkTagFilter
    var parts: seq<string>
    var hasTextStart: bool
    var hasReasoningStart: bool
    var yielded: seq<Frame>
    ghost var log: seq<Segment>

    ghost function Abstract(): Gen
      reads this, thinkFilter
    {
      Gen(thinkFilter.Abstract(), log, hasTextStart, hasReasoningStart, parts, yielded)
    }

    constructor ()
      ensures Abstract() == BEGIN && fresh(thinkFilter)
    {
      thinkFilter := new ThinkTagFilter();
      parts, hasTextStart, hasReasoningStart := [], false, false;
      yielded := [Start, StartStep];
      log := [];
    }

    method EmitFiltered(filtered: Event)
      modifies this
      ensures thinkFilter == old(thinkFilter)
      ensures Abstract() == Emit(old(Abstract()), filtered)
    {
      if filtered.content != "" {
        match filtered
        case Thinking(fcontent) =>
          if !hasReasoningStart {
            hasReasoningStart := true;
            yielded := yielded + [ReasoningStart];
          }
          yielded := yielded + [ReasoningDelta(JStr(fcontent))];
        case Chunk(fcontent) =>
          if hasReasoningStart {
            hasReasoningStart := false;
            yielded := yielded + [ReasoningEnd];
          }
          if !hasTextStart {
            hasTextStart := true;
            yielded := yielded + [TextStart];
          }
          yielded := yielded + [TextDelta(fcontent)];
          parts := parts + [fcontent];
      }
    }

    method EmitEvents(events: seq<Event>)
      modifies this
      ensures thinkFilter == old(thinkFilter)
      ensures Abstract() == EmitAll(old(Abstract()), events)
    {
      ghost var final := EmitAll(Abstract(), events);
      for i := 0 to |events|
        invariant thinkFilter == old(thinkFilter)
        invariant EmitAll(Abstract(), events[i..]) == final
      {
        assert events[i..][0] == events[i] && events[i..][1..] == events[i + 1..];
        EmitFiltered(events[i]);
      }
    }

    method OnModelStream(calls: seq<ToolCall>, content: Content) returns (raised: Option<string>)
      modifies this, thinkFilter
      ensures thinkFilter == old(thinkFilter)
      ensures Handled(Abstract(), raised) == Handle(old(Abstract()), AIChunk(calls, content))
    {
      raised := None;
      if calls != [] {
        for i := 0 to |calls|
          invariant thinkFilter == old(thinkFilter)
          invariant Abstract() == old(Abstract()).(out := old(yielded) + CallFrames(calls)[..i])
        {
          yielded := yielded + [ToolInputStart(calls[i].id, calls[i].name)];
        }
        assert CallFrames(calls)[..|calls|] == CallFrames(calls);
      } else if content.Blocks? {
        raised := Some(content.error);
      } else if content.s != "" {
        ghost var r := Scan(thinkFilter.buffer + content.s, thinkFilter.inThink);
        var events := thinkFilter.Process(content.s);
        log := log + r.segs;
        EmitEvents(events);
      }
    }

    method OnChainEnd()
      modifies this, thinkFilter
      ensures thinkFilter == old(thinkFilter)
      ensures Abstract() == FinishTurn(old(Abstract()))
    {
      log := log + FlushLog(thinkFilter.Abstract());
      var events := thinkFilter.Flush();
      EmitEvents(events);
      if hasReasoningStart {
        hasReasoningStart := false;
        yielded := yielded + [ReasoningEnd];
      }
      yielded := yielded + [Finish(Stop)];
    }

    method OnCustom(data: CustomData) returns (raised: Option<string>)
      modifies this
      ensures thinkFilter == old(thinkFilter)
      ensures Handled(Abstract(), raised) == HandleCustom(old(Abstract()), data)
    {
      raised := None;
      if !hasReasoningStart {
        hasReasoningStart := true;
        yielded := yielded + [ReasoningStart];
      }
      match data
      case Message(s) => yielded := yielded + [ReasoningDelta(JStr(s))];
      case Dict(content) =>
        if content.Jsonable? {
          yielded := yielded + [ReasoningDelta(content.value)];
        } else {
          raised := Some(content.error);
        }
      case OtherData =>
    }

    method OnEvent(e: GraphEvent) returns (raised: Option<string>)
      modifies this, thinkFilter
      ensures thinkFilter == old(thinkFilter)
      ensures Handled(Abstract(), raised) == Handle(old(Abstract()), e)
    {
      raised := None;
      match e
      case NotAIChunk =>
      case Unmapped =>
      case AIChunk(calls, content) => raised := OnModelStream(calls, content);
      case ToolStart(name, input) =>
        if input.Jsonable? {
          yielded := yielded + [ToolInputAvailable(name, input.value)];
        } else {
          raised := Some(input.error);
        }
      case ToolEnd(name, output) =>
        if output.Jsonable? {
          yielded := yielded + [ToolOutputAvailable(name, output.value)];
        } else {
          raised := Some(output.error);
        }
      case ChainEnd(topLevel) =>
        if topLevel {
          OnChainEnd();
        }
      case Custom(data) => raised := OnCustom(data);
    }

    /** The loop over graph events, up to its end or to the event that raises. */
    method Drain(events: seq<GraphEvent>, ending: Ending) returns (outcome: Ending)
      modifies this, thinkFilter
      ensures thinkFilter == old(thinkFilter)
      ensures (Abstract(), outcome) == Iterate(old(Abstract()), events, ending)
    {
      ghost var final := Iterate(Abstract(), events, ending);
      for i := 0 to |events|
        invariant thinkFilter == old(thinkFilter)
        invariant Iterate(Abstract(), events[i..], ending) == final
      {
        assert events[i..][0] == events[i] && events[i..][1..] == events[i + 1..];
        var raised := OnEvent(events[i]);
        if raised.Some? {
          return Raised(raised.value);
        }
      }
      return ending;
    }

    /** The whole response: every frame in order, and the message handed to the database. */
    method Run(events: seq<GraphEvent>, ending: Ending) returns (stored: Option<string>)
      requires Abstract() == BEGIN
      modifies this, thinkFilter
      ensures var (g, end) := Iterate(BEGIN, events, ending);
        yielded == g.out + Closing(end) && stored == Stored(g.parts)
    {
      var outcome := Drain(events, ending);
      if outcome.Cancelled? {
        yielded := yielded + [Finish(Cancel)];
      } else if outcome.Raised? {
        yielded := yielded + [Error(outcome.message)];
      }
      yielded := yielded + [Done];
      var fullResponse := JoinParts(parts);
      stored := if fullResponse == "" then None else Some(fullResponse);
    }
  }
}
