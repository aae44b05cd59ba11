/**
 What holds of every chunking, clean or not: the log of a run accounts for every character, only tags are dropped, an
 opening tag is found wherever it is cut, and no visible region contains one.
 */
module ThinkLog {
  import opened Common
  import opened TagSearch
  import opened ThinkFilter
  import opened ThinkMeaning

  /** The log of a run: one call of `process` per chunk. */
  ghost function RunLog(st: State, chunks: seq<string>): Scanned
    decreases |chunks|
  {
    if chunks == [] then Scanned([], st)
    else
      var r := Scan(st.buffer + chunks[0], st.inThink);
      var q := RunLog(r.rest, chunks[1..]);
      Scanned(r.segs + q.segs, q.rest)
  }

  function Raw(segs: seq<Segment>): string {
    if segs == [] then "" else segs[0].s + Raw(segs[1..])
  }

  /** A tag and nothing but its tail. */
  predicate IsTag(s: string, tag: string) {
    MatchAt(s, tag, 0) && forall k | |tag| <= k < |s| :: IsTail(s[k])
  }

  /** Text and opening tags outside think, thoughts and closing tags inside; `after` is the mode at the end. */
  predicate Alternates(segs: seq<Segment>, inThink: bool, after: bool) {
    if segs == [] then inThink == after
    else
      match segs[0]
      case Text(_) => !inThink && Alternates(segs[1..], false, after)
      case OpenTag(s) => !inThink && IsTag(s, OPEN) && Alternates(segs[1..], true, after)
      case Thought(_) => inThink && Alternates(segs[1..], true, after)
      case Eager(_) => inThink && Alternates(segs[1..], true, after)
      case CloseTag(s) => inThink && IsTag(s, CLOSE) && Alternates(segs[1..], false, after)
  }

  /** No visible region contains the opening tag; `cur` is the region so far, `held` what is still in the buffer. */
  ghost predicate RegionsFree(cur: string, segs: seq<Segment>, held: string)
    decreases |segs|
  {
    if segs == [] then NoMatch(cur + held, OPEN)
    else
      match segs[0]
      case Text(s) => RegionsFree(cur + s, segs[1..], held)
      case OpenTag(_) => NoMatch(cur, OPEN) && RegionsFree("", segs[1..], held)
      case Thought(_) => RegionsFree("", segs[1..], held)
      case Eager(_) => RegionsFree("", segs[1..], held)
      case CloseTag(_) => RegionsFree("", segs[1..], held)
  }

  /** The visible region a log ends in, when it starts with region `cur`. */
  function EndRegion(cur: string, segs: seq<Segment>): string
    decreases |segs|
  {
    if segs == [] then cur
    else if segs[0].Text? then EndRegion(cur + segs[0].s, segs[1..])
    else EndRegion("", segs[1..])
  }

  // ---- logs of several calls ----

  lemma HeadOfConcat(x: seq<Segment>, y: seq<Segment>)
    requires x != []
    ensures (x + y)[0] == x[0] && (x + y)[1..] == x[1..] + y
  {
  }

  lemma {:induction false} RawConcat(x: seq<Segment>, y: seq<Segment>)
    ensures Raw(x + y) == Raw(x) + Raw(y)
  {
    if x == [] {
      assert x + y == y;
    } else {
      HeadOfConcat(x, y);
      RawConcat(x[1..], y);
      Assoc(x[0].s, Raw(x[1..]), Raw(y));
    }
  }

  lemma {:induction false} TextsConcat(x: seq<Segment>, y: seq<Segment>)
    ensures Texts(x + y) == Texts(x) + Texts(y)
  {
    if x == [] {
      assert x + y == y;
    } else {
      HeadOfConcat(x, y);
      TextsConcat(x[1..], y);
      Assoc(TextOf(x[0]), Texts(x[1..]), Texts(y));
    }
  }

  lemma {:induction false} ThoughtsConcat(x: seq<Segment>, y: seq<Segment>)
    ensures Thoughts(x + y) == Thoughts(x) + Thoughts(y)
  {
    if x == [] {
      assert x + y == y;
    } else {
      HeadOfConcat(x, y);
      ThoughtsConcat(x[1..], y);
      Assoc(ThoughtOf(x[0]), Thoughts(x[1..]), Thoughts(y));
    }
  }

  lemma {:induction false} AlternatesConcat(x: seq<Segment>, y: seq<Segment>, m: bool, n: bool, after: bool)
    requires Alternates(x, m, n) && Alternates(y, n, after)
    ensures Alternates(x + y, m, after)
  {
    if x == [] {
      assert x + y == y;
    } else {
      var m1 := if x[0].OpenTag? then true else if x[0].CloseTag? then false else m;
      AlternatesConcat(x[1..], y, m1, n, after);
      HeadOfConcat(x, y);
    }
  }

  lemma {:induction false} RegionsConcat(cur: string, x: seq<Segment>, y: seq<Segment>, held: string, mid: string)
    requires RegionsFree(cur, x, mid) && RegionsFree(EndRegion(cur, x), y, held)
    ensures RegionsFree(cur, x + y, held)
    decreases |x|
  {
    if x == [] {
      assert x + y == y;
    } else {
      var next := if x[0].Text? then cur + x[0].s else "";
      RegionsConcat(next, x[1..], y, held, mid);
      HeadOfConcat(x, y);
    }
  }

  // ---- the log of one call ----

  lemma {:induction false} ScanAccounts(buf: string, m: bool)
    ensures var r := Scan(buf, m);
      Raw(r.segs) + r.rest.buffer == buf && Alternates(r.segs, m, r.rest.inThink)
    decreases |buf|
  {
    var k := Find(buf, if m then CLOSE else OPEN);
    if k >= 0 {
      var e := TailEnd(buf, k + if m then |CLOSE| else |OPEN|);
      ScanAccounts(buf[e..], !m);
      if m {
        ClosedAccounts(buf, k, e, buf[e..]);
      } else {
        OpenedAccounts(buf, k, e, buf[e..]);
      }
    } else {
      UntaggedAccounts(buf, m);
    }
  }

  lemma UntaggedAccounts(buf: string, m: bool)
    requires Find(buf, if m then CLOSE else OPEN) < 0
    ensures var r := Scan(buf, m);
      Raw(r.segs) + r.rest.buffer == buf && Alternates(r.segs, m, r.rest.inThink)
  {
    if buf != "" {
      var g := if m then Eager(buf) else Text(buf[..|buf| - HeldLen(buf)]);
      assert Scan(buf, m).segs == [g];
    }
  }

  lemma ClosedAccounts(buf: string, k: nat, e: nat, rest: string)
    requires k == Find(buf, CLOSE) && e == TailEnd(buf, k + |CLOSE|) && rest == buf[e..]
    requires var q := Scan(rest, false);
      Raw(q.segs) + q.rest.buffer == rest && Alternates(q.segs, false, q.rest.inThink)
    ensures var r := Scan(buf, true);
      Raw(r.segs) + r.rest.buffer == buf && Alternates(r.segs, true, r.rest.inThink)
  {
    var q := Scan(rest, false);
    AccountsTwo(Thought(buf[..k]), CloseTag(buf[k..e]), q.segs, true, q.rest.inThink);
    ThreeSlices(buf, k, e);
    Assoc(buf[..k] + buf[k..e], Raw(q.segs), q.rest.buffer);
  }

  lemma OpenedAccounts(buf: string, k: nat, e: nat, rest: string)
    requires k == Find(buf, OPEN) && e == TailEnd(buf, k + |OPEN|) && rest == buf[e..]
    requires var q := Scan(rest, true); Raw(q.segs) + q.rest.buffer == rest && Alternates(q.segs, true, q.rest.inThink)
    ensures var r := Scan(buf, false);
      Raw(r.segs) + r.rest.buffer == buf && Alternates(r.segs, false, r.rest.inThink)
  {
    var q := Scan(rest, true);
    ScanOpened(buf, k, e);
    AccountsTwo(Text(buf[..k]), OpenTag(buf[k..e]), q.segs, false, q.rest.inThink);
    ThreeSlices(buf, k, e);
    Assoc(buf[..k] + buf[k..e], Raw(q.segs), q.rest.buffer);
  }

  lemma ThreeSlices(s: string, k: nat, e: nat)
    requires k <= e <= |s|
    ensures s[..k] + s[k..e] + s[e..] == s
  {
  }

  lemma AccountsTwo(g: Segment, h: Segment, rest: seq<Segment>, m: bool, after: bool)
    requires if m then g.Thought? && h.CloseTag? && IsTag(h.s, CLOSE) else g.Text? && h.OpenTag? && IsTag(h.s, OPEN)
    requires Alternates(rest, !m, after)
    ensures Raw([g, h] + rest) == g.s + h.s + Raw(rest)
    ensures Alternates([g, h] + rest, m, after)
  {
  }

  /** Nothing that starts in the region `cur` can still become an opening tag. */
  ghost predicate Ahead(cur: string, buf: string) {
    && (forall j: nat | j < |cur| :: !MatchAt(cur + buf, OPEN, j))
    && (forall i: nat | PartialSuffix(cur + buf, i) :: i <= |buf|)
  }

  ghost predicate Carried(cur: string, st: State) {
    if st.inThink then cur == "" && st.buffer == ""
    else NoMatch(cur + st.buffer, OPEN) && HeldLen(cur + st.buffer) == |st.buffer|
  }

  lemma {:induction false} ScanRegions(cur: string, buf: string, m: bool)
    requires if m then cur == "" else Ahead(cur, buf)
    ensures var r := Scan(buf, m);
      && RegionsFree(cur, r.segs, if r.rest.inThink then "" else r.rest.buffer)
      && Carried(EndRegion(cur, r.segs), r.rest)
    decreases |buf|
  {
    var tag := if m then CLOSE else OPEN;
    var k := Find(buf, tag);
    var r := Scan(buf, m);
    if k >= 0 {
      var e := TailEnd(buf, k + |tag|);
      ScanRegions("", buf[e..], !m);
      if !m { RegionBefore(cur, buf, k); }
    } else if m {
      assert buf != "" ==> r.segs == [Eager(buf)] && r.segs[1..] == [];
    } else {
      RegionAll(cur, buf);
      if buf != "" {
        var g := Text(buf[..|buf| - HeldLen(buf)]);
        assert r.segs == [g] && r.segs[1..] == [];
        assert cur + g.s + r.rest.buffer == cur + buf;
      }
    }
  }

  lemma RegionBefore(cur: string, buf: string, k: nat)
    requires k == Find(buf, OPEN) && Ahead(cur, buf)
    ensures NoMatch(cur + buf[..k], OPEN)
  {
    forall j: nat | MatchAt(cur + buf[..k], OPEN, j) ensures false {
      assert cur + buf == (cur + buf[..k]) + buf[k..];
      MatchInLeft(cur + buf[..k], buf[k..], OPEN, j);
      if j >= |cur| { MatchInRight(cur, buf, OPEN, j - |cur|); }
    }
  }

  lemma RegionAll(cur: string, buf: string)
    requires Find(buf, OPEN) < 0 && Ahead(cur, buf)
    ensures NoMatch(cur + buf, OPEN) && HeldLen(cur + buf) == HeldLen(buf)
  {
    HeldRight(cur, buf);
    FindRight(cur, buf, OPEN);
  }

  // ---- every chunking ----

  lemma {:induction false} RunAccounts(st: State, chunks: seq<string>)
    ensures var q := RunLog(st, chunks);
      Raw(q.segs) + q.rest.buffer == st.buffer + Concat(chunks) && Alternates(q.segs, st.inThink, q.rest.inThink)
    decreases |chunks|
  {
    if chunks == [] {
    } else {
      var a := st.buffer + chunks[0];
      var r := Scan(a, st.inThink);
      var q := RunLog(r.rest, chunks[1..]);
      ScanAccounts(a, st.inThink);
      RunAccounts(r.rest, chunks[1..]);
      RawConcat(r.segs, q.segs);
      AlternatesConcat(r.segs, q.segs, st.inThink, r.rest.inThink, q.rest.inThink);
      var s := Concat(chunks[1..]);
      Assoc(st.buffer, chunks[0], s);
      Assoc(Raw(r.segs), Raw(q.segs), q.rest.buffer);
      Assoc(Raw(r.segs), r.rest.buffer, s);
    }
  }

  lemma {:induction false} RunRegions(cur: string, st: State, chunks: seq<string>)
    requires Carried(cur, st)
    ensures var q := RunLog(st, chunks); RegionsFree(cur, q.segs, if q.rest.inThink then "" else q.rest.buffer)
    decreases |chunks|
  {
    if chunks == [] {
    } else {
      var a := st.buffer + chunks[0];
      var r := Scan(a, st.inThink);
      if !st.inThink {
        HeldFindsOpen(cur + st.buffer, chunks[0]);
        HeldAcross(cur + st.buffer, chunks[0]);
        assert cur + st.buffer + chunks[0] == cur + a;
      }
      ScanRegions(cur, a, st.inThink);
      RunRegions(EndRegion(cur, r.segs), r.rest, chunks[1..]);
      var q := RunLog(r.rest, chunks[1..]);
      RegionsConcat(cur, r.segs, q.segs, if q.rest.inThink then "" else q.rest.buffer,
                    if r.rest.inThink then "" else r.rest.buffer);
    }
  }

  lemma {:induction false} RunSettles(st: State, chunks: seq<string>)
    requires Settled(st)
    ensures Settled(RunLog(st, chunks).rest)
    decreases |chunks|
  {
    if chunks == [] {
    } else {
      var a := st.buffer + chunks[0];
      ScanSettles(a, st.inThink);
      RunSettles(Scan(a, st.inThink).rest, chunks[1..]);
    }
  }

  /** The outcome of a run is the meaning of its log. */
  lemma {:induction false} RunMeaning(st: State, chunks: seq<string>)
    ensures var q := RunLog(st, chunks); RunOut(st, chunks) == Outcome(Texts(q.segs), Thoughts(q.segs), q.rest)
    decreases |chunks|
  {
    if chunks == [] {
    } else {
      var r := Scan(st.buffer + chunks[0], st.inThink);
      RunMeaning(r.rest, chunks[1..]);
      TextsConcat(r.segs, RunLog(r.rest, chunks[1..]).segs);
      ThoughtsConcat(r.segs, RunLog(r.rest, chunks[1..]).segs);
    }
  }

  /**
   Every chunking: the log and the held suffix are the stream, in order; it alternates between the two modes and drops
   only tags; no visible region contains an opening tag, however it was cut; at most five characters are held.
   */
  lemma LogOfStream(chunks: seq<string>)
    ensures var q := RunLog(INITIAL, chunks);
      && Raw(q.segs) + q.rest.buffer == Concat(chunks)
      && Alternates(q.segs, false, q.rest.inThink)
      && RegionsFree("", q.segs, if q.rest.inThink then "" else q.rest.buffer)
      && Settled(q.rest) && |q.rest.buffer| < |OPEN|
  {
    RunAccounts(INITIAL, chunks);
    assert "" + Concat(chunks) == Concat(chunks);
    RunRegions("", INITIAL, chunks);
    RunSettles(INITIAL, chunks);
  }

  /** The visible text before the first opening tag of a log. */
  function FirstRegion(segs: seq<Segment>): string {
    if segs == [] || segs[0].OpenTag? then ""
    else (if segs[0].Text? then segs[0].s else "") + FirstRegion(segs[1..])
  }

  predicate HasOpen(segs: seq<Segment>) {
    exists i :: 0 <= i < |segs| && segs[i].OpenTag?
  }

  /** What the first opening tag of `s` says about a log that carries `held` at its end. */
  ghost predicate FoundAt(s: string, segs: seq<Segment>, rest: State) {
    var k := Find(s, OPEN);
    if k >= 0 then HasOpen(segs) && FirstRegion(segs) == s[..k]
    else !HasOpen(segs) && FirstRegion(segs) + rest.buffer == s && !rest.inThink
  }

  lemma {:induction false} FirstRegionFound(st: State, chunks: seq<string>)
    requires Settled(st) && !st.inThink
    ensures var q := RunLog(st, chunks); FoundAt(st.buffer + Concat(chunks), q.segs, q.rest)
    decreases |chunks|
  {
    var b := st.buffer;
    if chunks == [] {
      assert b + "" == b;
    } else {
      var a, s := b + chunks[0], Concat(chunks[1..]);
      Assoc(b, chunks[0], s);
      var r := Scan(a, false);
      var q := RunLog(r.rest, chunks[1..]);
      if Find(a, OPEN) >= 0 {
        FoundInFirst(a, s, q.segs, q.rest);
      } else {
        ScanSettles(a, false);
        FirstRegionFound(r.rest, chunks[1..]);
        FoundLater(a, s, q.segs, q.rest);
      }
    }
  }

  lemma FoundInFirst(a: string, s: string, later: seq<Segment>, rest: State)
    requires Find(a, OPEN) >= 0
    ensures FoundAt(a + s, Scan(a, false).segs + later, rest)
  {
    FindLeft(a, s, OPEN);
    var segs := Scan(a, false).segs + later;
    var k := Find(a, OPEN);
    assert segs[0] == Text(a[..k]) && segs[1].OpenTag? && segs[1..][0] == segs[1];
    assert FirstRegion(segs[1..]) == "";
    assert (a + s)[..k] == a[..k];
  }

  lemma FoundLater(a: string, s: string, later: seq<Segment>, rest: State)
    requires Find(a, OPEN) < 0
    requires FoundAt(Scan(a, false).rest.buffer + s, later, rest)
    ensures FoundAt(a + s, Scan(a, false).segs + later, rest)
  {
    HeldFindsOpen(a, s);
    var i := |a| - HeldLen(a);
    FirstRegionStep(a, Scan(a, false).segs, later, i);
    assert a[..i] + a[i..] == a;
    assert Scan(a, false).rest.buffer == a[i..];
    FoundShift(a[..i], a[i..], s, later, Scan(a, false).segs + later, rest);
  }

  lemma FoundShift(x: string, held: string, s: string, later: seq<Segment>, segs: seq<Segment>, rest: State)
    requires forall j: nat | j < |x| :: !MatchAt(x + held + s, OPEN, j)
    requires FoundAt(held + s, later, rest)
    requires FirstRegion(segs) == x + FirstRegion(later) && HasOpen(segs) == HasOpen(later)
    ensures FoundAt(x + held + s, segs, rest)
  {
    Assoc(x, held, s);
    FindRight(x, held + s, OPEN);
    var k := Find(held + s, OPEN);
    if k >= 0 {
      SliceRight(x, held + s, k);
    } else {
      Assoc(x, FirstRegion(later), rest.buffer);
    }
  }

  lemma FirstRegionStep(a: string, x: seq<Segment>, y: seq<Segment>, i: nat)
    requires i <= |a| && x == if a == "" then [] else [Text(a[..i])]
    ensures FirstRegion(x + y) == a[..i] + FirstRegion(y)
    ensures HasOpen(x + y) == HasOpen(y)
  {
    var segs := x + y;
    if a == "" {
      assert segs == y;
    } else {
      assert segs[0] == x[0] && segs[1..] == y;
      if HasOpen(y) {
        var j :| 0 <= j < |y| && y[j].OpenTag?;
        assert segs[j + 1] == y[j];
      }
      if HasOpen(segs) {
        var j :| 0 <= j < |segs| && segs[j].OpenTag?;
        assert segs[j] == y[j - 1];
      }
    }
  }

  /**
   However the stream is cut, think mode is entered first at the leftmost opening tag of the whole stream, and a stream
   without one comes out unchanged after the final flush.
   */
  lemma OpenTagIsLeftmost(chunks: seq<string>)
    ensures var s, q := Concat(chunks), RunLog(INITIAL, chunks);
      var k := Find(s, OPEN);
      && (k >= 0 ==> HasOpen(q.segs) && FirstRegion(q.segs) == s[..k])
      && (k < 0 ==> !HasOpen(q.segs) && RunOut(INITIAL, chunks).Shown() == s && RunOut(INITIAL, chunks).thinking == "")
  {
    FirstRegionFound(INITIAL, chunks);
    assert "" + Concat(chunks) == Concat(chunks);
    RunMeaning(INITIAL, chunks);
    var q := RunLog(INITIAL, chunks);
    if !HasOpen(q.segs) {
      RunAccounts(INITIAL, chunks);
      AllText(q.segs, q.rest.inThink);
    }
  }

  lemma {:induction false} AllText(segs: seq<Segment>, after: bool)
    requires Alternates(segs, false, after) && !HasOpen(segs)
    ensures Texts(segs) == FirstRegion(segs) && Thoughts(segs) == ""
  {
    if segs == [] {
    } else {
      assert !segs[0].OpenTag?;
      assert forall i | 0 <= i < |segs[1..]| :: segs[1..][i] == segs[i + 1];
      AllText(segs[1..], after);
    }
  }
}
