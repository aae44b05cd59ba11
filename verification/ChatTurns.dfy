/**
 The reply of a whole response, turn by turn. A response may hold several turns, each closed by the end of the top-level
 chain, and may stop within one; the filter keeps its mode, and nothing else, from one turn to the next.
 */
module ChatTurns {
  import opened Common
  import opened ThinkFilter
  import opened ThinkMeaning
  import opened ThinkExact
  import opened ThinkLog
  import opened ChatStream
  import opened ChatTheorems

  /** The texts fed to the filter, one list per turn, up to the event that raises; the last turn was never closed. */
  function Turns(es: seq<GraphEvent>): (ts: seq<seq<string>>)
    ensures ts != []
  {
    if es == [] || RaiseOf(es[0]).Some? then [[]]
    else if es[0] == ChainEnd(true) then [[]] + Turns(es[1..])
    else Prepend(EventText(es[0]), Turns(es[1..]))
  }

  function Prepend(s: string, turns: seq<seq<string>>): seq<seq<string>>
    requires turns != []
  {
    if s == "" then turns else [[s] + turns[0]] + turns[1..]
  }

  /** The state in which the next turn starts. */
  ghost function AfterTurn(st: State, texts: seq<string>): State {
    State("", RunOut(st, texts).rest.inThink)
  }

  /** What the filter shows of the turns: all of a closed one, and of the last one what it has let out. */
  ghost function Reply(st: State, turns: seq<seq<string>>): string
    requires turns != []
    decreases |turns|
  {
    var o := RunOut(st, turns[0]);
    if |turns| == 1 then o.visible else o.Shown() + Reply(AfterTurn(st, turns[0]), turns[1..])
  }

  // ---- the generator stores the reply ----

  lemma {:induction false} EmitAllFilter(g: Gen, es: seq<Event>)
    ensures EmitAll(g, es).st == g.st && EmitAll(g, es).log == g.log
    decreases |es|
  {
    if es == [] {
    } else {
      EmitAllFilter(Emit(g, es[0]), es[1..]);
    }
  }

  lemma TextStep(g: Gen, e: GraphEvent, fed: string)
    requires Open(g) && Logged(g, fed) && EventText(e) != ""
    ensures var o, h := Out(g.st.buffer + EventText(e), g.st.inThink), Handle(g, e).g;
      h.st == o.rest && Join(h.parts) == Join(g.parts) + o.visible
  {
    var r := Scan(g.st.buffer + EventText(e), g.st.inThink);
    FeedKeeps(g, EventText(e), fed);
    EmitAllFilter(g.(st := r.rest, log := g.log + r.segs), Events(r.segs));
    TextsConcat(g.log, r.segs);
  }

  lemma ReplyFed(st: State, s: string, turns: seq<seq<string>>)
    requires turns != [] && s != ""
    ensures var o := Out(st.buffer + s, st.inThink); Reply(st, Prepend(s, turns)) == o.visible + Reply(o.rest, turns)
  {
    var o, all := Out(st.buffer + s, st.inThink), Prepend(s, turns);
    assert all[0][0] == s && all[0][1..] == turns[0] && all[1..] == turns[1..];
    assert RunOut(st, all[0]) == RunOut(o.rest, turns[0]).After(o.visible, o.thinking);
    if |turns| > 1 {
      var p := RunOut(o.rest, turns[0]);
      Assoc(o.visible, p.visible, p.rest.buffer);
      Assoc(o.visible, p.Shown(), Reply(AfterTurn(o.rest, turns[0]), turns[1..]));
    }
  }

  lemma TextReply(g: Gen, e: GraphEvent, fed: string, turns: seq<seq<string>>)
    requires Open(g) && Logged(g, fed) && EventText(e) != "" && turns != []
    ensures var h := Handle(g, e).g;
      Join(h.parts) + Reply(h.st, turns) == Join(g.parts) + Reply(g.st, Prepend(EventText(e), turns))
  {
    var o, h := Out(g.st.buffer + EventText(e), g.st.inThink), Handle(g, e).g;
    TextStep(g, e, fed);
    ReplyFed(g.st, EventText(e), turns);
    Assoc(Join(g.parts), o.visible, Reply(h.st, turns));
  }

  lemma EndReply(g: Gen, fed: string, turns: seq<seq<string>>)
    requires Open(g) && Logged(g, fed) && turns != []
    ensures var h := FinishTurn(g);
      Join(h.parts) + Reply(h.st, turns) == Join(g.parts) + Reply(g.st, [[]] + turns)
  {
    FinishKeeps(g, fed);
    var h := FinishTurn(g);
    assert ([[]] + turns)[1..] == turns && AfterTurn(g.st, []) == h.st;
    assert "" + g.st.buffer == g.st.buffer;
    Assoc(Join(g.parts), g.st.buffer, Reply(h.st, turns));
  }

  lemma {:induction false} RepliesFrom(g: Gen, es: seq<GraphEvent>, ending: Ending, fed: string)
    requires Open(g) && Logged(g, fed)
    ensures Join(Iterate(g, es, ending).0.parts) == Join(g.parts) + Reply(g.st, Turns(es))
    decreases |es|
  {
    if es == [] {
    } else {
      var h := Handle(g, es[0]).g;
      HandleKeeps(g, es[0], fed);
      if RaiseOf(es[0]).Some? {
        SideStep(g, es[0]);
      } else {
        RepliesFrom(h, es[1..], ending, fed + EventText(es[0]));
        if EventText(es[0]) != "" {
          TextReply(g, es[0], fed, Turns(es[1..]));
        } else if es[0] == ChainEnd(true) {
          EndReply(g, fed, Turns(es[1..]));
        } else {
          SideStep(g, es[0]);
        }
      }
    }
  }

  lemma Replies(es: seq<GraphEvent>, ending: Ending)
    ensures Join(Iterate(BEGIN, es, ending).0.parts) == Reply(INITIAL, Turns(es))
  {
    BeginOpen();
    RepliesFrom(BEGIN, es, ending, "");
    var reply := Reply(INITIAL, Turns(es));
    assert "" + reply == reply;
  }

  // ---- how the stream was cut ----

  function Merged(turns: seq<seq<string>>): seq<seq<string>> {
    seq(|turns|, i requires 0 <= i < |turns| => [Concat(turns[i])])
  }

  ghost predicate CleanTurns(st: State, turns: seq<seq<string>>)
    requires turns != []
    decreases |turns|
  {
    Clean(st, turns[0]) && (|turns| > 1 ==> CleanTurns(AfterTurn(st, turns[0]), turns[1..]))
  }

  lemma OneChunk(st: State, texts: seq<string>)
    requires Settled(st) && Clean(st, texts)
    ensures RunOut(st, [Concat(texts)]) == RunOut(st, texts)
  {
    ChunkingDichotomy(st, texts);
    RunOne(st, Concat(texts));
  }

  lemma RunOne(st: State, s: string)
    ensures RunOut(st, [s]) == Out(st.buffer + s, st.inThink)
  {
    var o := Out(st.buffer + s, st.inThink);
    assert [s][1..] == [];
    assert RunOut(o.rest, []).After(o.visible, o.thinking) == o;
  }

  lemma MergedTail(turns: seq<seq<string>>)
    requires turns != []
    ensures var ms := Merged(turns); ms[0] == [Concat(turns[0])] && ms[1..] == Merged(turns[1..])
  {
  }

  lemma SameTurn(st: State, x: seq<seq<string>>, y: seq<seq<string>>)
    requires x != [] && |x| == |y| && RunOut(st, x[0]) == RunOut(st, y[0])
    requires |x| > 1 ==> Reply(AfterTurn(st, x[0]), x[1..]) == Reply(AfterTurn(st, x[0]), y[1..])
    ensures Reply(st, x) == Reply(st, y)
  {
  }

  lemma {:induction false} CleanReply(st: State, turns: seq<seq<string>>)
    requires turns != [] && Settled(st) && CleanTurns(st, turns)
    ensures Reply(st, turns) == Reply(st, Merged(turns))
    decreases |turns|
  {
    OneChunk(st, turns[0]);
    if |turns| > 1 { CleanReply(AfterTurn(st, turns[0]), turns[1..]); }
    MergedTail(turns);
    SameTurn(st, turns, Merged(turns));
  }

  /**
   Every run, however many turns it has and however it ends: the stored message is what the filter shows of the streamed
   chunks, turn by turn; with clean boundaries it does not depend on how the text of each turn was cut.
   */
  lemma ReplyByTurns(es: seq<GraphEvent>, ending: Ending)
    ensures var (g, end) := Iterate(BEGIN, es, ending);
      var reply := DeltaText(g.out + Closing(end));
      && reply == Reply(INITIAL, Turns(es))
      && (CleanTurns(INITIAL, Turns(es)) ==> reply == Reply(INITIAL, Merged(Turns(es))))
  {
    WholeRun(es, ending);
    Replies(es, ending);
    if CleanTurns(INITIAL, Turns(es)) { CleanReply(INITIAL, Turns(es)); }
  }

  // ---- one turn ----

  /** The non-empty texts a run feeds to the filter, one per call of `process`, up to the event that raises. */
  function TextList(es: seq<GraphEvent>): seq<string> {
    if es == [] || RaiseOf(es[0]).Some? then []
    else if EventText(es[0]) == "" then TextList(es[1..])
    else [EventText(es[0])] + TextList(es[1..])
  }

  /** Events up to the end of a turn: none raises and none ends the top-level chain. */
  predicate WithinTurn(es: seq<GraphEvent>) {
    forall i | 0 <= i < |es| :: RaiseOf(es[i]).None? && es[i] != ChainEnd(true)
  }

  /** The run is over, or an event has raised, before the top-level chain ended. */
  predicate CutShort(es: seq<GraphEvent>) {
    es != [] ==> RaiseOf(es[0]).Some? || (es[0] != ChainEnd(true) && CutShort(es[1..]))
  }

  lemma {:induction false} CutTurns(es: seq<GraphEvent>)
    requires CutShort(es)
    ensures Turns(es) == [TextList(es)]
  {
    if es == [] || RaiseOf(es[0]).Some? {
    } else {
      CutTurns(es[1..]);
    }
  }

  lemma {:induction false} TurnThenEnd(es: seq<GraphEvent>, later: seq<GraphEvent>, ending: Ending)
    requires WithinTurn(es)
    ensures var all := es + [ChainEnd(true)] + later;
      Turns(all) == [TextList(es)] + Turns(later) && EndOf(all, ending) == EndOf(later, ending)
  {
    var all := es + [ChainEnd(true)] + later;
    if es == [] {
      assert all[0] == ChainEnd(true) && all[1..] == later;
    } else {
      assert all[0] == es[0] && all[1..] == es[1..] + [ChainEnd(true)] + later;
      assert forall i | 0 <= i < |es[1..]| :: es[1..][i] == es[i + 1];
      TurnThenEnd(es[1..], later, ending);
    }
  }

  /**
   Interrupted before the turn is over, by failure, cancellation or a client that leaves: the stored message is what the
   filter has let out of the chunks so far.
   */
  lemma InterruptedReply(es: seq<GraphEvent>, ending: Ending)
    requires CutShort(es)
    ensures var (g, end) := Iterate(BEGIN, es, ending);
      var reply := DeltaText(g.out + Closing(end));
      && reply == RunOut(INITIAL, TextList(es)).visible
      && (Clean(INITIAL, TextList(es)) ==> reply == Out(Concat(TextList(es)), false).visible)
  {
    ReplyByTurns(es, ending);
    CutTurns(es);
    OutcomeExact(TextList(es));
  }

  /**
   End to end: when the agent finishes its turn, the stored message is what the filter shows of the streamed chunks,
   and with clean boundaries it does not depend on how the stream was cut.
   */
  lemma ReplyIsShown(es: seq<GraphEvent>, ending: Ending)
    requires WithinTurn(es)
    ensures var (g, end) := Iterate(BEGIN, es + [ChainEnd(true)], ending);
      var reply := DeltaText(g.out + Closing(end));
      && end == ending
      && reply == RunOut(INITIAL, TextList(es)).Shown()
      && (Clean(INITIAL, TextList(es)) ==> reply == Out(Concat(TextList(es)), false).Shown())
  {
    var all := es + [ChainEnd(true)];
    ReplyByTurns(all, ending);
    assert all + [] == all;
    TurnThenEnd(es, [], ending);
    WholeRun(all, ending);
    var shown := RunOut(INITIAL, TextList(es)).Shown();
    assert [TextList(es), []][1..] == [[]];
    assert Turns(all) == [TextList(es), []];
    assert shown + "" == shown;
    OutcomeExact(TextList(es));
  }

  // ---- one `finish` per turn ----

  ghost function Finishes(fs: seq<Frame>): nat {
    multiset(fs)[Finish(Stop)]
  }

  lemma {:induction false} EmitAllFinishes(g: Gen, es: seq<Event>)
    ensures Finishes(EmitAll(g, es).out) == Finishes(g.out)
    decreases |es|
  {
    if es == [] {
    } else {
      EmitAllFinishes(Emit(g, es[0]), es[1..]);
    }
  }

  lemma TurnFinishes(g: Gen)
    ensures Finishes(FinishTurn(g).out) == Finishes(g.out) + 1
  {
    EmitAllFinishes(g.(st := State("", g.st.inThink), log := g.log + FlushLog(g.st)), FlushEvents(g.st));
  }

  lemma FeedFinishes(g: Gen, s: string)
    ensures Finishes(Feed(g, s).out) == Finishes(g.out)
  {
    var r := Scan(g.st.buffer + s, g.st.inThink);
    EmitAllFinishes(g.(st := r.rest, log := g.log + r.segs), Events(r.segs));
  }

  lemma CallFinishes(fs: seq<Frame>, calls: seq<ToolCall>)
    ensures Finishes(fs + CallFrames(calls)) == Finishes(fs)
  {
    assert Finish(Stop) !in CallFrames(calls);
  }

  lemma CustomFinishes(g: Gen, data: CustomData)
    ensures Finishes(HandleCustom(g, data).g.out) == Finishes(g.out)
  {
  }

  lemma HandleFinishes(g: Gen, e: GraphEvent)
    ensures Finishes(Handle(g, e).g.out) == Finishes(g.out) + if e == ChainEnd(true) then 1 else 0
  {
    if e == ChainEnd(true) {
      TurnFinishes(g);
    } else if EventText(e) != "" {
      FeedFinishes(g, EventText(e));
    } else if e.AIChunk? {
      CallFinishes(g.out, e.calls);
    } else if e.Custom? {
      CustomFinishes(g, e.data);
    }
  }

  lemma {:induction false} IterateFinishes(g: Gen, es: seq<GraphEvent>, ending: Ending, fed: string)
    requires Open(g) && Logged(g, fed)
    ensures Finishes(Iterate(g, es, ending).0.out) == Finishes(g.out) + |Turns(es)| - 1
    decreases |es|
  {
    if es == [] {
    } else {
      HandleKeeps(g, es[0], fed);
      HandleFinishes(g, es[0]);
      if RaiseOf(es[0]).None? { IterateFinishes(Handle(g, es[0]).g, es[1..], ending, fed + EventText(es[0])); }
    }
  }

  /** A response has one `finish` with reason `stop` per closed turn: none or several as well as one. */
  lemma FinishPerTurn(es: seq<GraphEvent>, ending: Ending)
    ensures var (g, end) := Iterate(BEGIN, es, ending); Finishes(g.out + Closing(end)) == |Turns(es)| - 1
  {
    BeginOpen();
    IterateFinishes(BEGIN, es, ending, "");
    var (g, end) := Iterate(BEGIN, es, ending);
    assert Finish(Stop) !in BEGIN.out && Finish(Stop) !in Closing(end);
  }
}
