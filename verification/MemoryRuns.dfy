/**
 Additions and fire-and-forget compressors interleaving at their awaits, with any number of compressors in flight. Each
 step is one exchange with Redis or one reply of the language model; keys may expire and exchanges may fail.
 */
module MemoryRuns {
  import opened Common
  import opened ShortTerm

  /** Where a background task or an `add_message` call awaits. `batch` is what the compressor read and summarises. */
  datatype Task =
    | Counting
    | Reading
    | Summarizing(batch: seq<Msg>)
    | Storing(batch: seq<Msg>, text: string)
    | Deleting(batch: seq<Msg>)

  /**
   `since` lists every message added since the key last expired, and `covered` the batches of finished compressors, in
   order; both are kept for the statements below.
   */
  datatype World = World(z: seq<Msg>, summary: Option<string>, tasks: map<nat, Task>, since: seq<Msg>,
                         covered: seq<Msg>, nextId: nat)

  datatype Step =
    | Add(m: Msg)
    | Count(id: nat)
    | Read(id: nat)
    | Reply(id: nat, text: string)
    | Store(id: nat)
    | Delete(id: nat)
    | Fail(id: nat)
    | Expire
    | ExpireSummary

  const START := World([], None, map[], [], [], 0)

  function Apply(c: Config, w: World, step: Step): World {
    match step
    case Add(m) =>
      w.(z := Added(c, w.z, m), since := w.since + [m], tasks := w.tasks[w.nextId := Counting], nextId := w.nextId + 1)
    case Expire => w.(z := [], since := [])
    case ExpireSummary => w.(summary := None)
    case Fail(id) => w.(tasks := w.tasks - {id})
    case _ => if step.id in w.tasks then Resume(c, w, step.id, w.tasks[step.id], step) else w
  }

  function Resume(c: Config, w: World, id: nat, t: Task, step: Step): World {
    match (t, step)
    case (Counting, Count(_)) =>
      w.(tasks := if |w.z| > c.threshold then w.tasks[id := Reading] else w.tasks - {id})
    case (Reading, Read(_)) =>
      w.(tasks := if Plan(c, w.z) == [] then w.tasks - {id} else w.tasks[id := Summarizing(Plan(c, w.z))])
    case (Summarizing(b), Reply(_, text)) => w.(tasks := w.tasks[id := Storing(b, text)])
    case (Storing(b, text), Store(_)) => w.(summary := Some(text), tasks := w.tasks[id := Deleting(b)])
    case (Deleting(b), Delete(_)) =>
      w.(z := DropFirst(w.z, |b|), covered := w.covered + b, tasks := w.tasks - {id})
    case _ => w
  }

  function Exec(c: Config, w: World, steps: seq<Step>): World {
    if steps == [] then w else Apply(c, Exec(c, w, steps[..|steps| - 1]), steps[|steps| - 1])
  }

  function AddsOf(steps: seq<Step>): seq<Msg> {
    if steps == [] then []
    else
      var s := steps[|steps| - 1];
      AddsOf(steps[..|steps| - 1]) + if s.Add? then [s.m] else []
  }

  predicate Compressing(t: Task) {
    t.Summarizing? || t.Storing? || t.Deleting?
  }

  // ---- a window no larger than what a compressor keeps ----

  ghost predicate NoCompressor(w: World) {
    w.summary == None && w.covered == [] && forall i | i in w.tasks :: !Compressing(w.tasks[i])
  }

  lemma {:induction false} InsertLength(z: seq<Msg>, m: Msg)
    ensures |Insert(z, m)| == |z| + 1
  {
    if z != [] && !Before(z[|z| - 1], m) { InsertLength(z[..|z| - 1], m); }
  }

  /** The trim bounds the set on every run, so a small window never leaves anything to compress. */
  lemma {:induction false} SmallWindowRun(c: Config, steps: seq<Step>)
    requires c.window <= Keep(c)
    ensures |Exec(c, START, steps).z| <= c.window && NoCompressor(Exec(c, START, steps))
  {
    if steps == [] {
    } else {
      var i := |steps| - 1;
      SmallWindowRun(c, steps[..i]);
      var w := Exec(c, START, steps[..i]);
      if steps[i].Add? { InsertLength(w.z, steps[i].m); }
    }
  }

  ghost predicate IsTail(since: seq<Msg>, adds: seq<Msg>) {
    |since| <= |adds| && since == adds[|adds| - |since|..]
  }

  lemma TailSnoc(since: seq<Msg>, adds: seq<Msg>, m: Msg)
    requires IsTail(since, adds)
    ensures IsTail(since + [m], adds + [m])
  {
  }

  /** The messages added since the last expiry are the latest of all. */
  lemma {:induction false} SinceIsTail(c: Config, steps: seq<Step>)
    ensures IsTail(Exec(c, START, steps).since, AddsOf(steps))
  {
    if steps == [] {
    } else {
      var i := |steps| - 1;
      SinceIsTail(c, steps[..i]);
      var adds := AddsOf(steps[..i]);
      if steps[i].Add? {
        TailSnoc(Exec(c, START, steps[..i]).since, adds, steps[i].m);
      } else {
        assert adds + [] == adds;
      }
    }
  }

  lemma {:induction false} IncreasingBefore(steps: seq<Step>, i: nat)
    requires Increasing(AddsOf(steps)) && i <= |steps|
    ensures Increasing(AddsOf(steps[..i]))
  {
    if i < |steps| {
      var n := |steps| - 1;
      var adds := AddsOf(steps[..n]);
      assert AddsOf(steps)[..|adds|] == adds;
      IncreasingBefore(steps[..n], i);
      assert steps[..n][..i] == steps[..i];
    } else {
      assert steps[..i] == steps;
    }
  }

  /** With increasing timestamps and no compressor, the set is the tail of what was added since the last expiry. */
  lemma {:induction false} WindowIsTail(c: Config, steps: seq<Step>)
    requires c.window <= Keep(c) && Increasing(AddsOf(steps))
    ensures var w := Exec(c, START, steps); w.z == Trim(w.since, c.window)
  {
    if steps == [] {
    } else {
      var i := |steps| - 1;
      IncreasingBefore(steps, i);
      WindowIsTail(c, steps[..i]);
      SmallWindowRun(c, steps[..i]);
      var w := Exec(c, START, steps[..i]);
      if steps[i].Add? {
        SinceIsTail(c, steps);
        TailStep(c, w.since, steps[i].m);
      }
    }
  }

  lemma TailStep(c: Config, since: seq<Msg>, m: Msg)
    requires Increasing(since + [m])
    ensures Added(c, Trim(since, c.window), m) == Trim(since + [m], c.window)
  {
    var z, d := Trim(since, c.window), |since| - |Trim(since, c.window)|;
    assert z + [m] == (since + [m])[d..];
    assert Increasing(z + [m]) by {
      assert forall i | 0 <= i < |z + [m]| :: (z + [m])[i] == (since + [m])[d + i];
    }
    AddNewest(c, z, m);
  }

  /** The shipped window of 20 and threshold of 15: the set is the last 20 messages and nothing is ever summarised. */
  lemma ShippedDefaults(steps: seq<Step>)
    requires Increasing(AddsOf(steps))
    ensures var w := Exec(SHIPPED, START, steps);
      w.z == Trim(w.since, 20) && w.summary == None && forall i | i in w.tasks :: !Compressing(w.tasks[i])
  {
    SmallWindowRun(SHIPPED, steps);
    WindowIsTail(SHIPPED, steps);
  }

  // ---- the condition on the window is exact ----

  function Burst(n: nat): seq<Step> {
    if n == 0 then [] else Burst(n - 1) + [Add(Msg(n, "m"))]
  }

  function Marks(n: nat): seq<Msg> {
    seq(n, i => Msg(i + 1, "m"))
  }

  /** May the step run in `w` without trimming, expiry, or a second compressor past its read? This can be observed. */
  predicate CalmIn(c: Config, w: World, s: Step) {
    && (s.Add? ==> |w.z| < c.window)
    && !s.Expire?
    && (s.Read? ==> forall i | i in w.tasks && i != s.id :: !Compressing(w.tasks[i]))
  }

  predicate CalmFrom(c: Config, w: World, steps: seq<Step>) {
    steps != [] ==>
      var n := |steps| - 1; CalmFrom(c, w, steps[..n]) && CalmIn(c, Exec(c, w, steps[..n]), steps[n])
  }

  predicate Calm(c: Config, steps: seq<Step>) {
    CalmFrom(c, START, steps)
  }

  ghost predicate AfterBurst(w: World, n: nat) {
    && w.z == Marks(n) && w.nextId == n && w.covered == []
    && (forall i: nat | i < n :: i in w.tasks) && (forall i | i in w.tasks :: w.tasks[i] == Counting)
  }

  lemma BurstStep(c: Config, w: World, n: nat)
    requires 0 < n <= c.window && AfterBurst(w, n - 1)
    ensures AfterBurst(Apply(c, w, Add(Msg(n, "m"))), n) && CalmIn(c, w, Add(Msg(n, "m")))
  {
    MarksGrow(n);
    AddNewest(c, w.z, Msg(n, "m"));
  }

  lemma MarksGrow(n: nat)
    requires n > 0
    ensures Marks(n) == Marks(n - 1) + [Msg(n, "m")] && Increasing(Marks(n))
  {
  }

  ghost predicate Bursted(c: Config, steps: seq<Step>, n: nat) {
    AfterBurst(Exec(c, START, steps), n) && Calm(c, steps)
  }

  lemma BurstNext(c: Config, before: seq<Step>, n: nat)
    requires 0 < n <= c.window && Bursted(c, before, n - 1)
    ensures Bursted(c, before + [Add(Msg(n, "m"))], n)
  {
    Extend(c, before, Add(Msg(n, "m")));
    BurstStep(c, Exec(c, START, before), n);
  }

  lemma BurstNone(c: Config)
    ensures Bursted(c, [], 0)
  {
  }

  lemma {:induction false} BurstRun(c: Config, n: nat)
    requires n <= c.window
    ensures Bursted(c, Burst(n), n)
  {
    if n == 0 {
      BurstNone(c);
    } else {
      BurstRun(c, n - 1);
      BurstNext(c, Burst(n - 1), n);
      assert Burst(n) == Burst(n - 1) + [Add(Msg(n, "m"))];
    }
  }

  lemma ReaderCompresses(c: Config, steps: seq<Step>)
    requires Calm(c, steps) && Ready(c, Exec(c, START, steps), 0)
    ensures !NoCompressor(Exec(c, START, steps + [Count(0)] + [Read(0)]))
  {
    CompressorReads(c, steps, 0);
    assert Compressing(Exec(c, START, steps + [Count(0)] + [Read(0)]).tasks[0]);
  }

  lemma BurstCompresses(c: Config)
    requires c.window > Keep(c)
    ensures exists steps :: !NoCompressor(Exec(c, START, steps))
  {
    var n := Keep(c) + 1;
    BurstRun(c, n);
    ReadyAfterBurst(c, Exec(c, START, Burst(n)), n, Msg(n + 1, "m"));
    ReaderCompresses(c, Burst(n));
  }

  /** Compressors can start on some run exactly when the window exceeds what a compressor keeps. */
  lemma CompressionExact(c: Config)
    ensures c.window <= Keep(c) <==> forall steps :: NoCompressor(Exec(c, START, steps))
  {
    if c.window <= Keep(c) {
      forall steps ensures NoCompressor(Exec(c, START, steps)) { SmallWindowRun(c, steps); }
    } else {
      BurstCompresses(c);
    }
  }

  // ---- a larger window: a delayed delete removes what was summarised ----

  /** `added` arrive after a compressor read `z`; then it deletes as many members as it summarised. */
  lemma DelayedDeleteExact(c: Config, z: seq<Msg>, added: seq<Msg>)
    requires Increasing(z + added) && |z| <= c.window && Plan(c, z) != []
    ensures var batch := Plan(c, z);
      var now := Trim(z + added, c.window);
      && (now[..|batch|] == batch <==> |z| + |added| <= c.window)
      && (batch + DropFirst(now, |batch|) == z + added <==> |z| + |added| <= c.window)
  {
    var batch, h := Plan(c, z), z + added;
    var now := Trim(h, c.window);
    var n, d := |batch|, |h| - |now|;
    assert |now| >= |z| > n;
    if d == 0 {
      assert now == h && h[..n] == batch && batch + h[n..] == h;
    } else {
      assert now[0] == h[d] && h[0] == z[0] == batch[0];
      assert |batch + DropFirst(now, n)| < |h|;
    }
  }

  /** At most one compressor is past its read, and what it read is still the front of the set, with more behind it. */
  ghost predicate Sole(w: World) {
    && (forall i, j | i in w.tasks && j in w.tasks && Compressing(w.tasks[i]) && Compressing(w.tasks[j]) :: i == j)
    && (forall i | i in w.tasks && Compressing(w.tasks[i]) ::
          w.tasks[i].batch <= w.z && 0 < |w.tasks[i].batch| < |w.z|)
    && (forall i | i in w.tasks :: i < w.nextId)
  }

  function NewIn(s: Step): seq<Msg> {
    if s.Add? then [s.m] else []
  }

  lemma CalmSole(c: Config, w: World, s: Step)
    requires Sole(w) && CalmIn(c, w, s) && Increasing(w.z + NewIn(s))
    ensures Sole(Apply(c, w, s))
  {
    if s.Add? { SoleAdds(c, w, s.m); }
  }

  lemma SoleAdds(c: Config, w: World, m: Msg)
    requires Sole(w) && |w.z| < c.window && Increasing(w.z + [m])
    ensures Sole(Apply(c, w, Add(m)))
  {
    AddNewest(c, w.z, m);
  }

  /** What moves from the front of the set to the covered messages stays in place. */
  lemma MovedOver(covered: seq<Msg>, b: seq<Msg>, z: seq<Msg>)
    requires b <= z
    ensures covered + b + DropFirst(z, |b|) == covered + z
  {
    assert z == b + z[|b|..];
    assert covered + (b + z[|b|..]) == covered + b + z[|b|..];
  }

  lemma CalmSum(c: Config, w: World, s: Step)
    requires Sole(w) && CalmIn(c, w, s) && !s.Add?
    ensures var v := Apply(c, w, s); v.covered + v.z == w.covered + w.z
  {
    if s.Delete? && s.id in w.tasks && w.tasks[s.id].Deleting? { MovedOver(w.covered, w.tasks[s.id].batch, w.z); }
  }

  lemma CalmStep(c: Config, w: World, s: Step)
    requires Sole(w) && CalmIn(c, w, s) && Increasing(w.z + NewIn(s))
    ensures var v := Apply(c, w, s); Sole(v) && v.covered + v.z == w.covered + w.z + NewIn(s)
  {
    CalmSole(c, w, s);
    if s.Add? {
      AddNewest(c, w.z, s.m);
      assert w.covered + (w.z + [s.m]) == w.covered + w.z + [s.m];
    } else {
      CalmSum(c, w, s);
      assert w.covered + w.z + [] == w.covered + w.z;
    }
  }

  lemma {:induction false} CalmConserves(c: Config, w: World, steps: seq<Step>, h: seq<Msg>)
    requires Sole(w) && w.covered + w.z == h && CalmFrom(c, w, steps) && Increasing(h + AddsOf(steps))
    ensures var v := Exec(c, w, steps); Sole(v) && v.covered + v.z == h + AddsOf(steps)
  {
    if steps == [] {
      assert h + [] == h;
    } else {
      var n := |steps| - 1;
      var before, added := h + AddsOf(steps[..n]), NewIn(steps[n]);
      Assoc(h, AddsOf(steps[..n]), added);
      IncreasingParts(before, added);
      CalmConserves(c, w, steps[..n], h);
      var v := Exec(c, w, steps[..n]);
      Assoc(v.covered, v.z, added);
      IncreasingParts(v.covered, v.z + added);
      CalmStep(c, v, steps[n]);
    }
  }

  lemma IncreasingParts(x: seq<Msg>, y: seq<Msg>)
    requires Increasing(x + y)
    ensures Increasing(x) && Increasing(y)
  {
    assert (x + y)[..|x|] == x && (x + y)[|x|..] == y;
  }

  /**
   Compression deletes what it summarised: over a whole calm run, with any number of compressions one after another,
   the summarised batches followed by the stored messages are exactly the messages added, in order.
   */
  lemma CompressionConserves(c: Config, steps: seq<Step>)
    requires Calm(c, steps) && Increasing(AddsOf(steps))
    ensures var v := Exec(c, START, steps); Sole(v) && v.covered + v.z == AddsOf(steps)
  {
    assert [] + AddsOf(steps) == AddsOf(steps);
    CalmConserves(c, START, steps, []);
  }

  // ---- what a reader of the context sees ----

  /** Does the step store the summary of a batch? */
  predicate Stores(w: World, s: Step) {
    s.Store? && s.id in w.tasks && w.tasks[s.id].Storing?
  }

  /** The batch that the latest stored summary is about. */
  function Summarized(c: Config, steps: seq<Step>): seq<Msg> {
    if steps == [] then []
    else
      var n := |steps| - 1;
      var w := Exec(c, START, steps[..n]);
      if Stores(w, steps[n]) then w.tasks[steps[n].id].batch else Summarized(c, steps[..n])
  }

  /** The messages that earlier summaries were about when the latest one replaced them. */
  function Replaced(c: Config, steps: seq<Step>): seq<Msg> {
    if steps == [] then []
    else
      var n := |steps| - 1;
      var w := Exec(c, START, steps[..n]);
      if Stores(w, steps[n]) then w.covered else Replaced(c, steps[..n])
  }

  /** The summarised batch is either still stored in front, or the last one deleted. */
  ghost predicate Split(w: World, batch: seq<Msg>, replaced: seq<Msg>) {
    && (w.covered == replaced + batch || (w.covered == replaced && batch <= w.z))
    && (forall i | i in w.tasks && w.tasks[i].Deleting? ::
          w.tasks[i].batch == batch && w.covered == replaced && batch <= w.z)
  }

  lemma SplitStep(c: Config, w: World, s: Step, batch: seq<Msg>, replaced: seq<Msg>)
    requires Sole(w) && CalmIn(c, w, s) && Increasing(w.z + NewIn(s)) && Split(w, batch, replaced)
    ensures var v := Apply(c, w, s);
      if Stores(w, s) then Split(v, w.tasks[s.id].batch, w.covered) else Split(v, batch, replaced)
  {
    if s.Add? { AddNewest(c, w.z, s.m); }
  }

  /** What one more step means for every function of a run. */
  lemma Extend(c: Config, steps: seq<Step>, s: Step)
    ensures var w, more := Exec(c, START, steps), steps + [s];
      && Exec(c, START, more) == Apply(c, w, s) && AddsOf(more) == AddsOf(steps) + NewIn(s)
      && (Calm(c, more) <==> Calm(c, steps) && CalmIn(c, w, s))
      && Summarized(c, more) == (if Stores(w, s) then w.tasks[s.id].batch else Summarized(c, steps))
      && Replaced(c, more) == (if Stores(w, s) then w.covered else Replaced(c, steps))
  {
    var more := steps + [s];
    assert more[..|more| - 1] == steps && more[|more| - 1] == s;
  }

  /** The step of `SplitRun` on values alone; `h` are the messages added so far. */
  lemma SplitNext(c: Config, w: World, s: Step, batch: seq<Msg>, replaced: seq<Msg>, h: seq<Msg>)
    requires Sole(w) && CalmIn(c, w, s) && Split(w, batch, replaced)
    requires h == w.covered + w.z && Increasing(h + NewIn(s))
    ensures var v := Apply(c, w, s);
      if Stores(w, s) then Split(v, w.tasks[s.id].batch, w.covered) else Split(v, batch, replaced)
  {
    assert (h + NewIn(s))[|w.covered|..] == w.z + NewIn(s);
    SplitStep(c, w, s, batch, replaced);
  }

  lemma {:induction false} SplitRun(c: Config, steps: seq<Step>)
    requires Calm(c, steps) && Increasing(AddsOf(steps))
    ensures Split(Exec(c, START, steps), Summarized(c, steps), Replaced(c, steps))
  {
    if steps == [] {
    } else {
      var before, s := steps[..|steps| - 1], steps[|steps| - 1];
      IncreasingBefore(steps, |steps| - 1);
      SplitRun(c, before);
      CompressionConserves(c, before);
      SplitNext(c, Exec(c, START, before), s, Summarized(c, before), Replaced(c, before), AddsOf(before));
    }
  }

  lemma FrontOnly(h: seq<Msg>, front: seq<Msg>, rest: seq<Msg>, m: Msg)
    requires h == front + rest && Increasing(h)
    ensures m in h && m !in rest <==> m in front
  {
    forall i, j | 0 <= i < |front| && 0 <= j < |rest| ensures front[i] != rest[j] {
      assert h[i].score < h[|front| + j].score;
    }
  }

  /**
   A stored summary replaces the one before. So on every calm run the context that `get_context` returns, the latest
   summary and the raw messages, misses exactly the messages that only replaced summaries were about, and nothing if and
   only if no batch had been deleted when the latest summary was stored. (A summary that expires is missed as well.)
   */
  lemma ContextExact(c: Config, steps: seq<Step>, m: Msg)
    requires Calm(c, steps) && Increasing(AddsOf(steps))
    ensures m in AddsOf(steps) && m !in Summarized(c, steps) && m !in Exec(c, START, steps).z
       <==> m in Replaced(c, steps)
  {
    SplitRun(c, steps);
    CompressionConserves(c, steps);
    var w := Exec(c, START, steps);
    var batch, replaced, h := Summarized(c, steps), Replaced(c, steps), AddsOf(steps);
    if w.covered == replaced + batch {
      assert h == replaced + (batch + w.z);
      FrontOnly(h, replaced, batch + w.z, m);
    } else {
      assert h == replaced + w.z;
      FrontOnly(h, replaced, w.z, m);
    }
  }

  // ---- the context is complete on every calm run exactly when no compressor can start ----

  lemma {:induction false} BurstAdds(n: nat)
    ensures AddsOf(Burst(n)) == Marks(n)
  {
    if n == 0 {
    } else {
      BurstAdds(n - 1);
      var b := Burst(n);
      assert b[..|b| - 1] == Burst(n - 1) && b[|b| - 1] == Add(Msg(n, "m"));
      assert Marks(n - 1) + [Msg(n, "m")] == Marks(n);
    }
  }

  /** One message more than a compressor keeps, and no compressor past its count. */
  ghost predicate Ready(c: Config, w: World, id: nat) {
    |w.z| == Keep(c) + 1 && id in w.tasks && forall i | i in w.tasks :: w.tasks[i] == Counting
  }

  function ToStore(steps: seq<Step>, id: nat): seq<Step> {
    steps + [Count(id)] + [Read(id)] + [Reply(id, "")] + [Store(id)]
  }

  /** The states between `Count` and `Reply`. */
  lemma OldestTo(c: Config, w: World, id: nat)
    requires Ready(c, w, id)
    ensures CalmIn(c, w, Count(id)) && Apply(c, w, Count(id)) == w.(tasks := w.tasks[id := Reading])
    ensures var w1 := w.(tasks := w.tasks[id := Reading]);
      CalmIn(c, w1, Read(id)) && Apply(c, w1, Read(id)) == w.(tasks := w.tasks[id := Summarizing(w.z[..1])])
  {
    var w1 := w.(tasks := w.tasks[id := Reading]);
    assert w1.tasks[id := Summarizing(w.z[..1])] == w.tasks[id := Summarizing(w.z[..1])];
  }

  lemma CompressorReads(c: Config, steps: seq<Step>, id: nat)
    requires Calm(c, steps) && Ready(c, Exec(c, START, steps), id)
    ensures var w, more := Exec(c, START, steps), steps + [Count(id)] + [Read(id)];
      && Calm(c, more) && AddsOf(more) == AddsOf(steps)
      && Exec(c, START, more) == w.(tasks := w.tasks[id := Summarizing(w.z[..1])])
  {
    OldestTo(c, Exec(c, START, steps), id);
    Extend(c, steps, Count(id));
    Extend(c, steps + [Count(id)], Read(id));
  }

  /** The states between `Reply` and `Delete`. */
  lemma StoreTo(c: Config, w: World, id: nat)
    requires id in w.tasks && w.tasks[id].Summarizing?
    ensures var b := w.tasks[id].batch;
      var w1 := w.(tasks := w.tasks[id := Storing(b, "")]);
      && CalmIn(c, w, Reply(id, "")) && Apply(c, w, Reply(id, "")) == w1 && !Stores(w, Reply(id, ""))
      && CalmIn(c, w1, Store(id)) && Stores(w1, Store(id))
      && Apply(c, w1, Store(id)) == w.(tasks := w.tasks[id := Deleting(b)], summary := Some(""))
  {
    var b := w.tasks[id].batch;
    assert w.tasks[id := Storing(b, "")][id := Deleting(b)] == w.tasks[id := Deleting(b)];
  }

  lemma CompressorStores(c: Config, steps: seq<Step>, id: nat)
    requires Calm(c, steps) && id in Exec(c, START, steps).tasks && Exec(c, START, steps).tasks[id].Summarizing?
    ensures var w, more := Exec(c, START, steps), steps + [Reply(id, "")] + [Store(id)];
      && Calm(c, more) && AddsOf(more) == AddsOf(steps) && Replaced(c, more) == w.covered
      && Exec(c, START, more) == w.(tasks := w.tasks[id := Deleting(w.tasks[id].batch)], summary := Some(""))
  {
    StoreTo(c, Exec(c, START, steps), id);
    Extend(c, steps, Reply(id, ""));
    Extend(c, steps + [Reply(id, "")], Store(id));
  }

  lemma CompressOldest(c: Config, steps: seq<Step>, id: nat)
    requires Calm(c, steps) && Ready(c, Exec(c, START, steps), id)
    ensures var w, more := Exec(c, START, steps), ToStore(steps, id);
      && Calm(c, more) && AddsOf(more) == AddsOf(steps) && Replaced(c, more) == w.covered
      && Exec(c, START, more) == w.(tasks := w.tasks[id := Deleting(w.z[..1])], summary := Some(""))
  {
    CompressorReads(c, steps, id);
    CompressorStores(c, steps + [Count(id)] + [Read(id)], id);
  }

  /** On some calm run the first message is neither stored nor in the latest summary. */
  ghost predicate Forgets(c: Config) {
    exists steps :: Calm(c, steps) && Increasing(AddsOf(steps)) && Replaced(c, steps) == [Msg(1, "m")]
  }

  /** A first compression is about to delete, and another task is still to count. */
  ghost predicate Between(c: Config, w: World, m: Msg) {
    && Increasing(w.z + [m]) && |w.z| == Keep(c) + 1 && w.covered == []
    && 0 in w.tasks && w.tasks[0] == Deleting(w.z[..1]) && 1 in w.tasks
    && forall i | i in w.tasks && i != 0 :: w.tasks[i] == Counting
  }

  lemma BetweenStates(c: Config, w: World, m: Msg)
    requires c.window > Keep(c) && Between(c, w, m)
    ensures var v := Apply(c, w, Delete(0));
      && CalmIn(c, w, Delete(0)) && CalmIn(c, v, Add(m))
      && Ready(c, Apply(c, v, Add(m)), 1) && Apply(c, v, Add(m)).covered == w.z[..1]
  {
    var v := Apply(c, w, Delete(0));
    assert v == w.(z := w.z[1..], covered := w.z[..1], tasks := w.tasks - {0});
    assert v.z + [m] == (w.z + [m])[1..];
    AddNewest(c, v.z, m);
  }

  /** After the first compression and one more addition everything is ready for the second. */
  lemma BetweenCompressions(c: Config, steps: seq<Step>, m: Msg)
    requires Calm(c, steps) && c.window > Keep(c) && Between(c, Exec(c, START, steps), m)
    ensures var w, more := Exec(c, START, steps), steps + [Delete(0)] + [Add(m)];
      && Calm(c, more) && AddsOf(more) == AddsOf(steps) + [m]
      && Ready(c, Exec(c, START, more), 1) && Exec(c, START, more).covered == w.z[..1]
  {
    BetweenStates(c, Exec(c, START, steps), m);
    Extend(c, steps, Delete(0));
    Extend(c, steps + [Delete(0)], Add(m));
  }

  lemma ReadyAfterBurst(c: Config, w: World, n: nat, m: Msg)
    requires n == Keep(c) + 1 && m == Msg(n + 1, "m") && AfterBurst(w, n)
    ensures Ready(c, w, 0) && Between(c, w.(tasks := w.tasks[0 := Deleting(w.z[..1])], summary := Some("")), m)
  {
  }

  lemma FirstCompression(c: Config, n: nat, m: Msg)
    requires c.window > Keep(c) && n == Keep(c) + 1 && m == Msg(n + 1, "m")
    ensures var steps := ToStore(Burst(n), 0);
      && Calm(c, steps) && AddsOf(steps) == Marks(n)
      && Exec(c, START, steps).z == Marks(n) && Between(c, Exec(c, START, steps), m)
  {
    BurstRun(c, n);
    BurstAdds(n);
    ReadyAfterBurst(c, Exec(c, START, Burst(n)), n, m);
    CompressOldest(c, Burst(n), 0);
  }

  lemma MarksFacts(n: nat, m: Msg)
    requires n > 0 && m == Msg(n + 1, "m")
    ensures Increasing(Marks(n) + [m]) && Marks(n)[..1] == [Msg(1, "m")]
  {
  }

  lemma SecondCompression(c: Config, steps: seq<Step>, n: nat, m: Msg)
    requires Calm(c, steps) && c.window > Keep(c) && Between(c, Exec(c, START, steps), m)
    requires n > 0 && m == Msg(n + 1, "m") && AddsOf(steps) == Marks(n) && Exec(c, START, steps).z == Marks(n)
    ensures Forgets(c)
  {
    BetweenCompressions(c, steps, m);
    CompressOldest(c, steps + [Delete(0)] + [Add(m)], 1);
    MarksFacts(n, m);
  }

  lemma SecondForgetsFirst(c: Config)
    requires c.window > Keep(c)
    ensures Forgets(c)
  {
    var n := Keep(c) + 1;
    var m := Msg(n + 1, "m");
    FirstCompression(c, n, m);
    SecondCompression(c, ToStore(Burst(n), 0), n, m);
  }

  /** The context misses nothing on every calm run exactly when no compressor can ever start. */
  lemma ContextCompleteExact(c: Config)
    ensures c.window <= Keep(c)
       <==> forall steps, m | Calm(c, steps) && Increasing(AddsOf(steps)) && m in AddsOf(steps) ::
              m in Summarized(c, steps) || m in Exec(c, START, steps).z
  {
    if c.window <= Keep(c) {
      forall steps, m | Calm(c, steps) && Increasing(AddsOf(steps)) && m in AddsOf(steps)
        ensures m in Summarized(c, steps) || m in Exec(c, START, steps).z
      {
        SmallWindowRun(c, steps);
        CompressionConserves(c, steps);
      }
    } else {
      SecondForgetsFirst(c);
      var steps :| Calm(c, steps) && Increasing(AddsOf(steps)) && Replaced(c, steps) == [Msg(1, "m")];
      ContextExact(c, steps, Msg(1, "m"));
    }
  }
}
