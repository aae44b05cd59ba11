/**
 The streaming think-tag filter. `Scan` is what one call of `process` does to its buffer, as a log of segments that
 accounts for every character; the class below is the imperative filter, proved to emit exactly the events of that log.
 */
module ThinkFilter {
  import opened Common
  import opened TagSearch

  datatype Event = Chunk(content: string) | Thinking(content: string)

  /** One consumed piece of the stream. `Thought` was ended by a closing tag, `Eager` emitted before one was seen. */
  datatype Segment = Text(s: string) | OpenTag(s: string) | Thought(s: string) | Eager(s: string) | CloseTag(s: string)

  datatype State = State(buffer: string, inThink: bool)

  datatype Scanned = Scanned(segs: seq<Segment>, rest: State)

  const INITIAL := State("", false)

  // ---- events ----

  function StripLeft(s: string): string {
    if s != "" && IsSpace(s[0]) then StripLeft(s[1..]) else s
  }

  function StripRight(s: string): string {
    if s != "" && IsSpace(s[|s| - 1]) then StripRight(s[..|s| - 1]) else s
  }

  /** Python's `str.strip`. */
  function Strip(s: string): string {
    StripRight(StripLeft(s))
  }

  predicate AllSpace(s: string) {
    forall i | 0 <= i < |s| :: IsSpace(s[i])
  }

  /** `t` is the slice `s[i..j]`: only whitespace was cut off, and none is left at either end. */
  predicate CutTo(s: string, t: string, i: nat, j: nat) {
    && i <= j <= |s| && t == s[i..j]
    && (forall n | 0 <= n < i :: IsSpace(s[n])) && (forall n | j <= n < |s| :: IsSpace(s[n]))
    && (i < j ==> !IsSpace(s[i]) && !IsSpace(s[j - 1]))
  }

  ghost predicate IsTrimmed(s: string, t: string) {
    exists i: nat, j: nat :: CutTo(s, t, i, j)
  }

  lemma {:induction false} StripLeftIs(s: string) returns (i: nat)
    ensures i <= |s| && StripLeft(s) == s[i..] && (i < |s| ==> !IsSpace(s[i]))
    ensures forall n | 0 <= n < i :: IsSpace(s[n])
  {
    if s == "" || !IsSpace(s[0]) {
      i := 0;
    } else {
      var k := StripLeftIs(s[1..]);
      i := k + 1;
      assert s[i..] == s[1..][k..] && forall n | 0 < n < i :: s[n] == s[1..][n - 1];
    }
  }

  lemma {:induction false} StripRightIs(s: string) returns (j: nat)
    ensures j <= |s| && StripRight(s) == s[..j] && (0 < j ==> !IsSpace(s[j - 1]))
    ensures forall n | j <= n < |s| :: IsSpace(s[n])
  {
    if s == "" || !IsSpace(s[|s| - 1]) {
      j := |s|;
    } else {
      var e := |s| - 1;
      j := StripRightIs(s[..e]);
      assert s[..e][..j] == s[..j] && forall n | j <= n < e :: s[n] == s[..e][n];
    }
  }

  lemma StripTrims(s: string)
    ensures IsTrimmed(s, Strip(s))
  {
    var i := StripLeftIs(s);
    var t := s[i..];
    var j := StripRightIs(t);
    assert t[..j] == s[i..i + j] && forall n | i + j <= n < |s| :: s[n] == t[n - i];
    assert CutTo(s, Strip(s), i, i + j);
  }

  /** Slices that differ would differ at an end: one would keep the whitespace the other cut off. */
  lemma TrimmedOnce(s: string, t: string, u: string, i: nat, j: nat, k: nat, l: nat)
    requires CutTo(s, t, i, j) && CutTo(s, u, k, l)
    ensures t == u
  {
  }

  /** Stripping is that cut, and there is only one. */
  lemma StripExact(s: string, t: string)
    ensures IsTrimmed(s, t) <==> t == Strip(s)
  {
    StripTrims(s);
    if IsTrimmed(s, t) {
      var i: nat, j: nat :| CutTo(s, t, i, j);
      var k: nat, l: nat :| CutTo(s, Strip(s), k, l);
      TrimmedOnce(s, t, Strip(s), i, j, k, l);
    }
  }

  /** Nothing is left exactly when there was nothing but whitespace. */
  lemma StripsToNothing(s: string)
    ensures Strip(s) == "" <==> AllSpace(s)
  {
    StripTrims(s);
    var i: nat, j: nat :| CutTo(s, Strip(s), i, j);
  }

  function EventOf(g: Segment): seq<Event> {
    match g
    case Text(s) => if s == "" then [] else [Chunk(s)]
    case Thought(s) => if Strip(s) == "" then [] else [Thinking(Strip(s))]
    case Eager(s) => [Thinking(s)]
    case OpenTag(_) => []
    case CloseTag(_) => []
  }

  function Events(segs: seq<Segment>): seq<Event> {
    if segs == [] then [] else EventOf(segs[0]) + Events(segs[1..])
  }

  /**
   What the events of a log are: every visible text and every unfinished thought as it is, every closed thought without
   the whitespace around it, and nothing for an empty text, a thought of whitespace, or a tag.
   */
  ghost predicate Emitted(segs: seq<Segment>, es: seq<Event>)
    decreases |segs|
  {
    if segs == [] then es == []
    else
      match segs[0]
      case OpenTag(_) => Emitted(segs[1..], es)
      case CloseTag(_) => Emitted(segs[1..], es)
      case Eager(s) => es != [] && es[0] == Thinking(s) && Emitted(segs[1..], es[1..])
      case Text(s) =>
        if s == "" then Emitted(segs[1..], es) else es != [] && es[0] == Chunk(s) && Emitted(segs[1..], es[1..])
      case Thought(s) =>
        if AllSpace(s) then Emitted(segs[1..], es)
        else es != [] && es[0].Thinking? && IsTrimmed(s, es[0].content) && Emitted(segs[1..], es[1..])
  }

  lemma {:induction false} EmittedExact(segs: seq<Segment>, es: seq<Event>)
    ensures Emitted(segs, es) <==> es == Events(segs)
    decreases |segs|
  {
    if segs == [] {
    } else {
      var g, rest := segs[0], segs[1..];
      EmittedExact(rest, es);
      if es != [] {
        EmittedExact(rest, es[1..]);
        assert es == [es[0]] + es[1..];
        if g.Thought? { StripExact(g.s, es[0].content); }
      }
      if g.Thought? { StripsToNothing(g.s); }
      if EventOf(g) != [] { assert ([EventOf(g)[0]] + Events(rest))[1..] == Events(rest); }
    }
  }

  // ---- the scan of one buffer ----

  ghost function Scan(buf: string, inThink: bool): (r: Scanned)
    decreases |buf|
  {
    if buf == "" then Scanned([], State("", inThink))
    else if inThink then
      var k := Find(buf, CLOSE);
      if k < 0 then Scanned([Eager(buf)], State("", true))
      else
        var e := TailEnd(buf, k + |CLOSE|);
        var r := Scan(buf[e..], false);
        Scanned([Thought(buf[..k]), CloseTag(buf[k..e])] + r.segs, r.rest)
    else
      var k := Find(buf, OPEN);
      if k < 0 then
        var h := HeldLen(buf);
        Scanned([Text(buf[..|buf| - h])], State(buf[|buf| - h..], false))
      else
        var e := TailEnd(buf, k + |OPEN|);
        var r := Scan(buf[e..], true);
        Scanned([Text(buf[..k]), OpenTag(buf[k..e])] + r.segs, r.rest)
  }

  /** What `process` leaves behind: nothing, or outside think a proper non-empty prefix of the opening tag. */
  ghost predicate Settled(st: State) {
    st.buffer == "" || (!st.inThink && |st.buffer| < |OPEN| && HeldLen(st.buffer) == |st.buffer|)
  }

  lemma {:induction false} ScanSettles(buf: string, inThink: bool)
    ensures Settled(Scan(buf, inThink).rest)
    decreases |buf|
  {
    if buf == "" {
    } else if inThink {
      var k := Find(buf, CLOSE);
      if k >= 0 { ScanSettles(buf[TailEnd(buf, k + |CLOSE|)..], false); }
    } else {
      var k := Find(buf, OPEN);
      if k >= 0 {
        ScanSettles(buf[TailEnd(buf, k + |OPEN|)..], true);
      } else {
        HeldIsProper(buf);
        if HeldLen(buf) > 0 { HeldOfHeld(buf); }
      }
    }
  }

  // ---- the filter object ----

  lemma EventsOne(g: Segment)
    ensures Events([g]) == EventOf(g)
  {
    assert [g][1..] == [];
  }

  /** The four branches of the loop, as equations on what is still to be emitted. */
  ghost function Pending(buf: string, inThink: bool): seq<Event> {
    Events(Scan(buf, inThink).segs)
  }

  lemma ScanOpened(buf: string, k: nat, e: nat)
    requires k == Find(buf, OPEN) && e == TailEnd(buf, k + |OPEN|)
    ensures var r := Scan(buf[e..], true);
      Scan(buf, false) == Scanned([Text(buf[..k]), OpenTag(buf[k..e])] + r.segs, r.rest)
  {
  }

  lemma SilentTag(g: Segment, tag: Segment, rest: seq<Segment>)
    requires tag.OpenTag? || tag.CloseTag?
    ensures Events([g, tag] + rest) == EventOf(g) + Events(rest)
  {
    assert [] + Events(rest) == Events(rest);
  }

  lemma StepClosed(buf: string, k: nat, e: nat)
    requires buf != "" && k == Find(buf, CLOSE) && e == TailEnd(buf, k + |CLOSE|)
    ensures Pending(buf, true) == EventOf(Thought(buf[..k])) + Pending(buf[e..], false)
    ensures Scan(buf, true).rest == Scan(buf[e..], false).rest
  {
    SilentTag(Thought(buf[..k]), CloseTag(buf[k..e]), Scan(buf[e..], false).segs);
  }

  lemma StepEager(buf: string)
    requires buf != "" && Find(buf, CLOSE) < 0
    ensures Pending(buf, true) == [Thinking(buf)] && Scan(buf, true).rest == State("", true)
  {
    EventsOne(Eager(buf));
  }

  lemma StepOpened(buf: string, k: nat, e: nat)
    requires buf != "" && k == Find(buf, OPEN) && e == TailEnd(buf, k + |OPEN|)
    ensures Pending(buf, false) == EventOf(Text(buf[..k])) + Pending(buf[e..], true)
    ensures Scan(buf, false).rest == Scan(buf[e..], true).rest
  {
    ScanOpened(buf, k, e);
    SilentTag(Text(buf[..k]), OpenTag(buf[k..e]), Scan(buf[e..], true).segs);
  }

  lemma StepHeld(buf: string, i: nat)
    requires buf != "" && Find(buf, OPEN) < 0 && i == |buf| - HeldLen(buf)
    ensures Pending(buf, false) == EventOf(Text(buf[..i])) && Scan(buf, false).rest == State(buf[i..], false)
  {
    EventsOne(Text(buf[..i]));
  }

  /** What one pass owes the rest of the scan. */
  ghost predicate Passed(st: State, emitted: seq<Event>, done: bool, next: State) {
    var r := Scan(st.buffer, st.inThink);
    if done then
      Events(r.segs) == emitted && next == r.rest
    else
      && |next.buffer| < |st.buffer|
      && Events(r.segs) == emitted + Pending(next.buffer, next.inThink)
      && r.rest == Scan(next.buffer, next.inThink).rest
  }

  class ThinkTagFilter {
    var buffer: string
    var inThink: bool

    ghost function Abstract(): State
      reads this
    {
      State(buffer, inThink)
    }

    constructor ()
      ensures Abstract() == INITIAL
    {
      buffer, inThink := "", false;
    }

    method Process(text: string) returns (events: seq<Event>)
      modifies this
      ensures var r := Scan(old(buffer) + text, old(inThink));
        events == Events(r.segs) && Emitted(r.segs, events) && Abstract() == r.rest
      ensures Settled(Abstract())
    {
      events := [];
      buffer := buffer + text;
      ghost var due, final := Pending(buffer, inThink), Scan(buffer, inThink).rest;
      ScanSettles(buffer, inThink);
      EmittedExact(Scan(buffer, inThink).segs, due);
      var waiting := false;
      while buffer != "" && !waiting
        invariant due == events + (if waiting then [] else Pending(buffer, inThink))
        invariant final == if waiting then Abstract() else Scan(buffer, inThink).rest
        decreases !waiting, |buffer|
      {
        var emitted;
        if inThink {
          emitted, waiting := TakeThinking();
        } else {
          emitted, waiting := TakeVisible();
        }
        Assoc(events, emitted, if waiting then [] else Pending(buffer, inThink));
        events := events + emitted;
      }
    }

    /** One pass of the loop inside think: up to a closing tag, or everything there is. */
    method TakeThinking() returns (emitted: seq<Event>, done: bool)
      requires buffer != "" && inThink
      modifies this
      ensures Passed(old(Abstract()), emitted, done, Abstract())
    {
      emitted, done := [], false;
      var k := Search(buffer, CLOSE);
      if k >= 0 {
        var e := SkipTail(buffer, k + |CLOSE|);
        StepClosed(buffer, k, e);
        var thinkingContent := buffer[..k];
        buffer := buffer[e..];
        inThink := false;
        if Strip(thinkingContent) != "" {
          emitted := [Thinking(Strip(thinkingContent))];
        }
      } else {
        StepEager(buffer);
        emitted := [Thinking(buffer)];
        buffer := "";
        done := true;
      }
    }

    /** One pass of the loop outside think: up to an opening tag, or up to a held prefix of one. */
    method TakeVisible() returns (emitted: seq<Event>, done: bool)
      requires buffer != "" && !inThink
      modifies this
      ensures Passed(old(Abstract()), emitted, done, Abstract())
    {
      emitted, done := [], false;
      var k := Search(buffer, OPEN);
      if k >= 0 {
        var e := SkipTail(buffer, k + |OPEN|);
        StepOpened(buffer, k, e);
        var before := buffer[..k];
        buffer := buffer[e..];
        inThink := true;
        if before != "" {
          emitted := [Chunk(before)];
        }
      } else {
        StepHeld(buffer, |buffer| - HeldLen(buffer));
        var partial := FindPartialOpen(buffer);
        done := true;
        if partial != -1 {
          if partial > 0 {
            emitted := [Chunk(buffer[..partial])];
          }
          buffer := buffer[partial..];
        } else {
          assert buffer[..|buffer|] == buffer;
          emitted := [Chunk(buffer)];
          buffer := "";
        }
      }
    }

    /** In every state that `Process` leaves behind only the chunk branch can be taken. */
    method Flush() returns (events: seq<Event>)
      modifies this
      ensures Abstract() == State("", old(inThink))
      ensures events == FlushEvents(old(Abstract()))
      ensures Settled(old(Abstract())) ==> events == Events([Text(old(buffer))])
    {
      events := [];
      EventsOne(Text(buffer));
      if buffer != "" {
        if inThink {
          events := [Thinking(Strip(buffer))];
        } else {
          events := [Chunk(buffer)];
        }
        buffer := "";
      }
    }
  }

  function FlushEvents(st: State): seq<Event> {
    if st.buffer == "" then []
    else if st.inThink then [Thinking(Strip(st.buffer))]
    else [Chunk(st.buffer)]
  }
}
