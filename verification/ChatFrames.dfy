/**
 Every frame of every response, from the list of graph events alone. What is due is computed first: the events of the
 filter, turn by turn, and what tools, custom events and chain ends send. It is then bracketed in a second pass, and the
 generator, which does both at once, yields exactly the result.
 */
module ChatFrames {
  import opened Common
  import opened ThinkFilter
  import opened ThinkLog
  import opened ThinkEvents
  import opened JsonText
  import opened ChatStream
  import opened ChatTheorems
  import opened ChatTurns

  /** An event of the filter, a frame sent as it is, or the mere opening of the reasoning part. */
  datatype Item = Spoken(e: Event) | Direct(f: Frame) | Opening

  function Speech(es: seq<Event>): seq<Item> {
    seq(|es|, i requires 0 <= i < |es| => Spoken(es[i]))
  }

  function Requests(calls: seq<ToolCall>): seq<Item> {
    seq(|calls|, i requires 0 <= i < |calls| => Direct(ToolInputStart(calls[i].id, calls[i].name)))
  }

  /** What an event sends besides text. */
  function SentBy(e: GraphEvent): seq<Item> {
    match e
    case AIChunk(calls, _) => Requests(calls)
    case ToolStart(name, Jsonable(input)) => [Direct(ToolInputAvailable(name, input))]
    case ToolEnd(name, Jsonable(output)) => [Direct(ToolOutputAvailable(name, output))]
    case Custom(Message(s)) => [Opening, Direct(ReasoningDelta(JStr(s)))]
    case Custom(Dict(Jsonable(content))) => [Opening, Direct(ReasoningDelta(content))]
    case Custom(_) => [Opening]
    case ChainEnd(true) => [Direct(Finish(Stop))]
    case _ => []
  }

  /** What an event makes the filter say, and the filter after it. */
  ghost function Says(st: State, e: GraphEvent): (seq<Event>, State) {
    if e == ChainEnd(true) then (FlushEvents(st), State("", st.inThink))
    else if EventText(e) == "" then ([], st)
    else
      var r := Scan(st.buffer + EventText(e), st.inThink);
      (Events(r.segs), r.rest)
  }

  /** Everything due, up to the event that raises; that one has sent what precedes its failure. */
  ghost function Due(st: State, es: seq<GraphEvent>): seq<Item>
    decreases |es|
  {
    if es == [] then []
    else if RaiseOf(es[0]).Some? then SentBy(es[0])
    else
      var (said, next) := Says(st, es[0]);
      Speech(said) + SentBy(es[0]) + Due(next, es[1..])
  }

  // ---- bracketing ----

  datatype Open = Open(reasoning: bool, text: bool)

  /** Where each item leaves the brackets. */
  function After(o: Open, i: Item): Open {
    match i
    case Opening => o.(reasoning := true)
    case Direct(Finish(Stop)) => o.(reasoning := false)
    case Direct(_) => o
    case Spoken(e) => if e.content == "" then o else if e.Thinking? then o.(reasoning := true) else Open(false, true)
  }

  /** The frame an item stands for. */
  function Payload(i: Item): seq<Frame> {
    match i
    case Opening => []
    case Direct(f) => [f]
    case Spoken(e) =>
      if e.content == "" then [] else if e.Thinking? then [ReasoningDelta(JStr(e.content))] else [TextDelta(e.content)]
  }

  /** A start or an end exactly where the state of a part changes. */
  function Brackets(o: Open, p: Open): seq<Frame> {
    (if p.reasoning == o.reasoning then [] else if p.reasoning then [ReasoningStart] else [ReasoningEnd])
    + (if p.text && !o.text then [TextStart] else [])
  }

  /** Each item behind the brackets it needs. */
  function Bracketed(o: Open, items: seq<Item>): seq<Frame>
    decreases |items|
  {
    if items == [] then []
    else
      var p := After(o, items[0]);
      Brackets(o, p) + Payload(items[0]) + Bracketed(p, items[1..])
  }

  ghost function Opened(g: Gen): Open {
    Open(g.hasReasoning, g.hasText)
  }

  function AfterAll(o: Open, items: seq<Item>): Open
    decreases |items|
  {
    if items == [] then o else AfterAll(After(o, items[0]), items[1..])
  }

  lemma {:induction false} BracketedConcat(o: Open, x: seq<Item>, y: seq<Item>)
    ensures Bracketed(o, x + y) == Bracketed(o, x) + Bracketed(AfterAll(o, x), y)
    ensures AfterAll(o, x + y) == AfterAll(AfterAll(o, x), y)
    decreases |x|
  {
    if x == [] {
      assert x + y == y;
    } else {
      assert (x + y)[0] == x[0] && (x + y)[1..] == x[1..] + y;
      var p := After(o, x[0]);
      BracketedConcat(p, x[1..], y);
      Assoc(Brackets(o, p) + Payload(x[0]), Bracketed(p, x[1..]), Bracketed(AfterAll(o, x), y));
    }
  }

  // ---- the generator yields what is due ----

  /** From `g` to `h` exactly `items` were sent. */
  ghost predicate Yields(g: Gen, items: seq<Item>, h: Gen) {
    h.out == g.out + Bracketed(Opened(g), items) && Opened(h) == AfterAll(Opened(g), items)
  }

  lemma YieldsOne(g: Gen, i: Item, h: Gen)
    requires Opened(h) == After(Opened(g), i)
    requires h.out == g.out + Brackets(Opened(g), Opened(h)) + Payload(i)
    ensures Yields(g, [i], h)
  {
    assert [i][1..] == [] && Bracketed(Opened(h), []) == [];
  }

  lemma YieldsBoth(g: Gen, x: seq<Item>, h: Gen, y: seq<Item>, k: Gen)
    requires Yields(g, x, h) && Yields(h, y, k)
    ensures Yields(g, x + y, k)
  {
    BracketedConcat(Opened(g), x, y);
    Assoc(g.out, Bracketed(Opened(g), x), Bracketed(Opened(h), y));
  }

  lemma EmitYields(g: Gen, e: Event)
    ensures Yields(g, [Spoken(e)], Emit(g, e))
  {
    YieldsOne(g, Spoken(e), Emit(g, e));
  }

  lemma {:induction false} EmitAllYields(g: Gen, es: seq<Event>)
    ensures Yields(g, Speech(es), EmitAll(g, es))
    decreases |es|
  {
    if es == [] {
      assert g.out + [] == g.out;
    } else {
      EmitYields(g, es[0]);
      EmitAllYields(Emit(g, es[0]), es[1..]);
      YieldsBoth(g, [Spoken(es[0])], Emit(g, es[0]), Speech(es[1..]), EmitAll(g, es));
      assert Speech(es) == [Spoken(es[0])] + Speech(es[1..]);
    }
  }

  lemma {:induction false} CallsYield(g: Gen, calls: seq<ToolCall>)
    ensures Yields(g, Requests(calls), g.(out := g.out + CallFrames(calls)))
  {
    if calls == [] {
      assert g.out + [] == g.out;
    } else {
      var n := |calls| - 1;
      var before, after := g.(out := g.out + CallFrames(calls[..n])), g.(out := g.out + CallFrames(calls));
      CallsYield(g, calls[..n]);
      CallFramesSnoc(g.out, calls, n);
      var last := Direct(ToolInputStart(calls[n].id, calls[n].name));
      YieldsOne(before, last, after);
      YieldsBoth(g, Requests(calls[..n]), before, [last], after);
      assert Requests(calls) == Requests(calls[..n]) + [last];
    }
  }

  lemma FinishYields(g: Gen)
    ensures var h := FinishTurn(g);
      Yields(g, Speech(FlushEvents(g.st)) + [Direct(Finish(Stop))], h) && h.st == State("", g.st.inThink)
  {
    var k := g.(st := State("", g.st.inThink), log := g.log + FlushLog(g.st));
    var said := EmitAll(k, FlushEvents(g.st));
    EmitAllYields(k, FlushEvents(g.st));
    EmitAllFilter(k, FlushEvents(g.st));
    YieldsOne(said, Direct(Finish(Stop)), FinishTurn(g));
    YieldsBoth(k, Speech(FlushEvents(g.st)), said, [Direct(Finish(Stop))], FinishTurn(g));
  }

  lemma FeedYields(g: Gen, s: string)
    ensures var r, h := Scan(g.st.buffer + s, g.st.inThink), Feed(g, s);
      Yields(g, Speech(Events(r.segs)), h) && h.st == r.rest
  {
    var r := Scan(g.st.buffer + s, g.st.inThink);
    var k := g.(st := r.rest, log := g.log + r.segs);
    EmitAllYields(k, Events(r.segs));
    EmitAllFilter(k, Events(r.segs));
  }

  lemma CustomYields(g: Gen, data: CustomData)
    ensures Yields(g, SentBy(Custom(data)), HandleCustom(g, data).g) && HandleCustom(g, data).g.st == g.st
  {
    var k := OpenReasoning(g);
    YieldsOne(g, Opening, k);
    if data.Message? || (data.Dict? && data.content.Jsonable?) {
      var f := ReasoningDelta(if data.Message? then JStr(data.s) else data.content.value);
      YieldsOne(k, Direct(f), Put(k, f));
      YieldsBoth(g, [Opening], k, [Direct(f)], Put(k, f));
      assert [Opening] + [Direct(f)] == [Opening, Direct(f)];
    }
  }

  lemma SilentYields(g: Gen, e: GraphEvent)
    requires EventText(e) == "" && e != ChainEnd(true)
    ensures var h := Handle(g, e); Yields(g, SentBy(e), h.g) && h.g.st == g.st && h.raised == RaiseOf(e)
  {
    match e
    case AIChunk(calls, _) =>
      CallsYield(g, calls);
      if calls == [] { assert g.out + CallFrames(calls) == g.out; }
    case Custom(data) => CustomYields(g, data);
    case ToolStart(name, Jsonable(v)) => YieldsOne(g, Direct(ToolInputAvailable(name, v)), Handle(g, e).g);
    case ToolEnd(name, Jsonable(v)) => YieldsOne(g, Direct(ToolOutputAvailable(name, v)), Handle(g, e).g);
    case _ => assert g.out + [] == g.out;
  }

  lemma HandleYields(g: Gen, e: GraphEvent)
    ensures var h := Handle(g, e);
      && h.raised == RaiseOf(e)
      && (h.raised.Some? ==> Yields(g, SentBy(e), h.g))
      && (h.raised.None? ==>
            var (said, next) := Says(g.st, e); Yields(g, Speech(said) + SentBy(e), h.g) && h.g.st == next)
  {
    if e == ChainEnd(true) {
      FinishYields(g);
    } else if EventText(e) != "" {
      FeedYields(g, EventText(e));
      var said := Speech(Says(g.st, e).0);
      assert SentBy(e) == [] && said + [] == said;
    } else {
      SilentYields(g, e);
      assert Speech([]) + SentBy(e) == SentBy(e);
    }
  }

  lemma {:induction false} IterateYields(g: Gen, es: seq<GraphEvent>, ending: Ending)
    ensures var (h, end) := Iterate(g, es, ending); Yields(g, Due(g.st, es), h) && end == EndOf(es, ending)
    decreases |es|
  {
    if es == [] {
      assert g.out + [] == g.out;
    } else {
      var h := Handle(g, es[0]).g;
      HandleYields(g, es[0]);
      if RaiseOf(es[0]).None? {
        IterateYields(h, es[1..], ending);
        var (said, next) := Says(g.st, es[0]);
        YieldsBoth(g, Speech(said) + SentBy(es[0]), h, Due(next, es[1..]), Iterate(h, es[1..], ending).0);
      }
    }
  }

  /** The frames that end a response, from the way it ended. */
  predicate EndsWith(frames: seq<Frame>, body: seq<Frame>, end: Ending) {
    match end
    case Raised(m) => frames == body + [Error(m)] + [Done]
    case Cancelled => frames == body + [Finish(Cancel)] + [Done]
    case _ => frames == body + [Done]
  }

  /**
   Every run, every frame: the opening, what is due behind its brackets, and the end; a failed run carries the message
   of the first event that raises, or of the iteration.
   */
  lemma FramesExact(es: seq<GraphEvent>, ending: Ending)
    ensures var (g, end) := Iterate(BEGIN, es, ending);
      EndsWith(g.out + Closing(end), [Start, StartStep] + Bracketed(Open(false, false), Due(INITIAL, es)),
               EndOf(es, ending))
  {
    IterateYields(BEGIN, es, ending);
    var (g, end) := Iterate(BEGIN, es, ending);
    if |Closing(end)| == 2 { assert Closing(end) == [Closing(end)[0]] + [Done]; }
    if |Closing(end)| == 2 { Assoc(g.out, [Closing(end)[0]], [Done]); }
  }

  // ---- what is due, in two independent accounts ----

  function SpokenIn(items: seq<Item>): seq<Event> {
    if items == [] then [] else (if items[0].Spoken? then [items[0].e] else []) + SpokenIn(items[1..])
  }

  function DirectIn(items: seq<Item>): seq<Frame> {
    if items == [] then [] else (if items[0].Direct? then [items[0].f] else []) + DirectIn(items[1..])
  }

  lemma {:induction false} AccountsConcat(x: seq<Item>, y: seq<Item>)
    ensures SpokenIn(x + y) == SpokenIn(x) + SpokenIn(y) && DirectIn(x + y) == DirectIn(x) + DirectIn(y)
  {
    if x == [] {
      assert x + y == y;
    } else {
      assert (x + y)[0] == x[0] && (x + y)[1..] == x[1..] + y;
      AccountsConcat(x[1..], y);
      Assoc(if x[0].Spoken? then [x[0].e] else [], SpokenIn(x[1..]), SpokenIn(y));
      Assoc(if x[0].Direct? then [x[0].f] else [], DirectIn(x[1..]), DirectIn(y));
    }
  }

  lemma {:induction false} SpeechAccounts(es: seq<Event>)
    ensures SpokenIn(Speech(es)) == es && DirectIn(Speech(es)) == []
  {
    if es == [] {
    } else {
      assert Speech(es)[1..] == Speech(es[1..]);
      SpeechAccounts(es[1..]);
      assert [es[0]] + es[1..] == es;
    }
  }

  lemma {:induction false} NothingSpoken(items: seq<Item>)
    requires forall i | 0 <= i < |items| :: !items[i].Spoken?
    ensures SpokenIn(items) == []
  {
    if items == [] {
    } else {
      NothingSpoken(items[1..]);
    }
  }

  lemma OneEvent(said: seq<Event>, sent: seq<Item>, later: seq<Item>)
    requires forall i | 0 <= i < |sent| :: !sent[i].Spoken?
    ensures SpokenIn(Speech(said) + sent + later) == said + SpokenIn(later)
    ensures DirectIn(Speech(said) + sent + later) == DirectIn(sent) + DirectIn(later)
  {
    SpeechAccounts(said);
    NothingSpoken(sent);
    AccountsConcat(Speech(said), sent);
    AccountsConcat(Speech(said) + sent, later);
    assert said + [] == said && [] + DirectIn(sent) == DirectIn(sent);
  }

  /** What the filter says of the turns: the events of a whole stream for a closed one, and those so far of the last. */
  ghost function TurnEvents(st: State, turns: seq<seq<string>>): seq<Event>
    requires turns != []
    decreases |turns|
  {
    if |turns| == 1 then Events(RunLog(st, turns[0]).segs)
    else RunEvents(st, turns[0]) + TurnEvents(AfterTurn(st, turns[0]), turns[1..])
  }

  /** What the events send directly, in order, up to the one that raises. */
  function Sends(es: seq<GraphEvent>): seq<Frame> {
    if es == [] || RaiseOf(es[0]).Some? then [] else DirectIn(SentBy(es[0])) + Sends(es[1..])
  }

  lemma {:induction false} DirectsExact(st: State, es: seq<GraphEvent>)
    ensures DirectIn(Due(st, es)) == Sends(es)
    decreases |es|
  {
    if es == [] || RaiseOf(es[0]).Some? {
    } else {
      var (said, next) := Says(st, es[0]);
      DirectsExact(next, es[1..]);
      OneEvent(said, SentBy(es[0]), Due(next, es[1..]));
    }
  }

  lemma TurnFed(st: State, s: string, turns: seq<seq<string>>)
    requires turns != [] && s != ""
    ensures var r := Scan(st.buffer + s, st.inThink);
      TurnEvents(st, Prepend(s, turns)) == Events(r.segs) + TurnEvents(r.rest, turns)
  {
    var r, all := Scan(st.buffer + s, st.inThink), Prepend(s, turns);
    assert all[0][0] == s && all[0][1..] == turns[0] && all[1..] == turns[1..];
    if |turns| == 1 {
      EventsConcat(r.segs, RunLog(r.rest, turns[0]).segs);
    } else {
      assert RunEvents(st, all[0]) == Events(r.segs) + RunEvents(r.rest, turns[0]);
      assert AfterTurn(st, all[0]) == AfterTurn(r.rest, turns[0]);
      Assoc(Events(r.segs), RunEvents(r.rest, turns[0]), TurnEvents(AfterTurn(r.rest, turns[0]), turns[1..]));
    }
  }

  lemma {:induction false} EventsConcat(x: seq<Segment>, y: seq<Segment>)
    ensures Events(x + y) == Events(x) + Events(y)
  {
    if x == [] {
      assert x + y == y;
    } else {
      assert (x + y)[0] == x[0] && (x + y)[1..] == x[1..] + y;
      EventsConcat(x[1..], y);
      Assoc(EventOf(x[0]), Events(x[1..]), Events(y));
    }
  }

  /** One event further, the turns say what the event makes the filter say, and then the rest. */
  lemma TurnStep(st: State, e: GraphEvent, later: seq<GraphEvent>)
    requires RaiseOf(e).None?
    ensures var (said, next) := Says(st, e);
      TurnEvents(st, Turns([e] + later)) == said + TurnEvents(next, Turns(later))
  {
    var es := [e] + later;
    assert es[0] == e && es[1..] == later;
    if e == ChainEnd(true) {
      assert Turns(es)[0] == [] && Turns(es)[1..] == Turns(later);
    } else if EventText(e) != "" {
      TurnFed(st, EventText(e), Turns(later));
    } else {
      assert [] + TurnEvents(st, Turns(later)) == TurnEvents(st, Turns(later));
    }
  }

  lemma {:induction false} SpokenByTurns(st: State, es: seq<GraphEvent>)
    ensures SpokenIn(Due(st, es)) == TurnEvents(st, Turns(es))
    decreases |es|
  {
    if es == [] {
    } else if RaiseOf(es[0]).Some? {
      NothingSpoken(SentBy(es[0]));
    } else {
      var (said, next) := Says(st, es[0]);
      SpokenByTurns(next, es[1..]);
      OneEvent(said, SentBy(es[0]), Due(next, es[1..]));
      TurnStep(st, es[0], es[1..]);
      assert [es[0]] + es[1..] == es;
    }
  }

  // ---- the frames without their brackets ----

  predicate IsBracket(f: Frame) {
    f.Start? || f.StartStep? || f.ReasoningStart? || f.ReasoningEnd? || f.TextStart?
  }

  function Bare(fs: seq<Frame>): seq<Frame> {
    if fs == [] then [] else (if IsBracket(fs[0]) then [] else [fs[0]]) + Bare(fs[1..])
  }

  function Payloads(items: seq<Item>): seq<Frame> {
    if items == [] then [] else Payload(items[0]) + Payloads(items[1..])
  }

  lemma {:induction false} BareConcat(x: seq<Frame>, y: seq<Frame>)
    ensures Bare(x + y) == Bare(x) + Bare(y)
  {
    if x == [] {
      assert x + y == y;
    } else {
      assert (x + y)[0] == x[0] && (x + y)[1..] == x[1..] + y;
      BareConcat(x[1..], y);
      Assoc(if IsBracket(x[0]) then [] else [x[0]], Bare(x[1..]), Bare(y));
    }
  }

  lemma {:induction false} AllBrackets(fs: seq<Frame>)
    requires forall i | 0 <= i < |fs| :: IsBracket(fs[i])
    ensures Bare(fs) == []
  {
    if fs == [] {
    } else {
      AllBrackets(fs[1..]);
    }
  }

  predicate Sendable(i: Item) {
    i.Direct? ==> !IsBracket(i.f)
  }

  lemma BarePayload(i: Item)
    requires Sendable(i)
    ensures Bare(Payload(i)) == Payload(i)
  {
    var f := Payload(i);
    if f != [] { assert f[1..] == []; }
  }

  lemma BareItem(brackets: seq<Frame>, f: seq<Frame>, later: seq<Frame>)
    requires (forall i | 0 <= i < |brackets| :: IsBracket(brackets[i])) && Bare(f) == f
    ensures Bare(brackets + f + later) == f + Bare(later)
  {
    AllBrackets(brackets);
    BareConcat(brackets, f);
    BareConcat(brackets + f, later);
    assert [] + f == f;
  }

  lemma {:induction false} BareBracketed(o: Open, items: seq<Item>)
    requires forall i | 0 <= i < |items| :: Sendable(items[i])
    ensures Bare(Bracketed(o, items)) == Payloads(items)
    decreases |items|
  {
    if items == [] {
    } else {
      var p := After(o, items[0]);
      BareBracketed(p, items[1..]);
      BarePayload(items[0]);
      BareItem(Brackets(o, p), Payload(items[0]), Bracketed(p, items[1..]));
    }
  }

  lemma {:induction false} DueSendable(st: State, es: seq<GraphEvent>)
    ensures forall i | 0 <= i < |Due(st, es)| :: Sendable(Due(st, es)[i])
    decreases |es|
  {
    if es == [] {
    } else {
      if RaiseOf(es[0]).None? { DueSendable(Says(st, es[0]).1, es[1..]); }
    }
  }

  /**
   Every run: without their brackets, the frames before the end are an interleaving, in the order of the graph events,
   of what the filter says of each turn and of what the other events send. So every reasoning delta is a non-empty
   thinking event or the content of a custom event, every text delta a non-empty chunk, and nothing is missing.
   */
  lemma FramesAccount(es: seq<GraphEvent>, ending: Ending)
    ensures var due := Due(INITIAL, es);
      && Bare(Iterate(BEGIN, es, ending).0.out) == Payloads(due)
      && SpokenIn(due) == TurnEvents(INITIAL, Turns(es))
      && DirectIn(due) == Sends(es)
  {
    var due := Due(INITIAL, es);
    IterateYields(BEGIN, es, ending);
    SpokenByTurns(INITIAL, es);
    DirectsExact(INITIAL, es);
    DueSendable(INITIAL, es);
    BareBracketed(Open(false, false), due);
    AllBrackets([Start, StartStep]);
    BareConcat([Start, StartStep], Bracketed(Open(false, false), due));
    assert [] + Payloads(due) == Payloads(due);
  }
}
