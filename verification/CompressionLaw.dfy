/**
 Any number of compressors at once. A compressor deletes by rank, so what it deletes is what it summarised only if its
 batch is still in front; the law below says that this is all that can go wrong.
 */
module CompressionLaw {
  import opened Common
  import opened ShortTerm
  import opened MemoryRuns

  /** May the step run without trimming or expiry? */
  predicate Fits(c: Config, w: World, s: Step) {
    (s.Add? ==> |w.z| < c.window) && !s.Expire?
  }

  predicate Untrimmed(c: Config, steps: seq<Step>) {
    steps != [] ==>
      var n := |steps| - 1; Untrimmed(c, steps[..n]) && Fits(c, Exec(c, START, steps[..n]), steps[n])
  }

  predicate Deletes(w: World, s: Step) {
    s.Delete? && s.id in w.tasks && w.tasks[s.id].Deleting?
  }

  /** A compressor that deletes finds its own batch in front. */
  predicate InFront(w: World, s: Step) {
    Deletes(w, s) ==> w.tasks[s.id].batch <= w.z
  }

  predicate InPlace(c: Config, steps: seq<Step>) {
    steps != [] ==>
      var n := |steps| - 1; InPlace(c, steps[..n]) && InFront(Exec(c, START, steps[..n]), steps[n])
  }

  /** The set is the end of the history `h`, and every batch was read from it. */
  ghost predicate Accounted(w: World, h: seq<Msg>) {
    && |w.z| <= |h| && w.z == h[|h| - |w.z|..]
    && (forall i, m | i in w.tasks && Compressing(w.tasks[i]) && m in w.tasks[i].batch :: m in h)
  }

  /** Some deleted batch stands where the history has something else. */
  ghost predicate Broken(w: World, h: seq<Msg>) {
    exists j :: 0 <= j < |w.covered| && w.covered[j] in h && (j < |h| ==> w.covered[j] != h[j])
  }

  // ---- one step ----

  lemma AddAccounted(c: Config, w: World, m: Msg, h: seq<Msg>)
    requires Accounted(w, h) && |w.z| < c.window && Increasing(h + [m])
    ensures Added(c, w.z, m) == w.z + [m] && Accounted(Apply(c, w, Add(m)), h + [m])
  {
    var d := |h| - |w.z|;
    assert w.z + [m] == (h + [m])[d..];
    AddNewest(c, w.z, m);
  }

  lemma AccountedStep(c: Config, w: World, s: Step, h: seq<Msg>)
    requires Accounted(w, h) && Fits(c, w, s) && Increasing(h + NewIn(s))
    ensures Accounted(Apply(c, w, s), h + NewIn(s))
  {
    if s.Add? {
      AddAccounted(c, w, s.m, h);
    } else {
      assert h + [] == h;
    }
  }

  lemma KeptInFront(c: Config, w: World, s: Step, h: seq<Msg>)
    requires Accounted(w, h) && w.covered + w.z == h && InFront(w, s)
    requires Fits(c, w, s) && Increasing(h + NewIn(s))
    ensures var v := Apply(c, w, s); v.covered + v.z == h + NewIn(s)
  {
    if s.Add? {
      AddAccounted(c, w, s.m, h);
      assert w.covered + (w.z + [s.m]) == h + [s.m];
    } else {
      assert h + [] == h;
      if Deletes(w, s) {
        var b := w.tasks[s.id].batch;
        assert w.z == b + w.z[|b|..];
        assert w.covered + (b + w.z[|b|..]) == w.covered + b + w.z[|b|..];
      }
    }
  }

  lemma BrokenByDelete(c: Config, w: World, s: Step, h: seq<Msg>)
    requires Accounted(w, h) && w.covered + w.z == h && !InFront(w, s)
    ensures Broken(Apply(c, w, s), h)
  {
    var b, k := w.tasks[s.id].batch, |w.covered|;
    var j :| 0 <= j < |b| && (j < |w.z| ==> b[j] != w.z[j]);
    assert b[j] in b;
    var v := Apply(c, w, s);
    assert v.covered[k + j] == b[j];
    assert j < |w.z| ==> h[k + j] == w.z[j];
  }

  lemma BrokenStays(c: Config, w: World, s: Step, h: seq<Msg>)
    requires Broken(w, h) && Increasing(h + NewIn(s))
    ensures Broken(Apply(c, w, s), h + NewIn(s))
  {
    var j :| 0 <= j < |w.covered| && w.covered[j] in h && (j < |h| ==> w.covered[j] != h[j]);
    var v, g := Apply(c, w, s), h + NewIn(s);
    var i :| 0 <= i < |h| && h[i] == w.covered[j];
    assert v.covered[j] == w.covered[j] && g[i] == h[i];
    assert j < |h| ==> g[j] == h[j];
    assert |h| <= j < |g| ==> g[i].score < g[j].score;
  }

  // ---- every run ----

  lemma LawStep(c: Config, w: World, s: Step, h: seq<Msg>, before: bool)
    requires Accounted(w, h) && Fits(c, w, s) && Increasing(h + NewIn(s))
    requires if before then w.covered + w.z == h else Broken(w, h)
    ensures var v := Apply(c, w, s);
      && Accounted(v, h + NewIn(s))
      && if before && InFront(w, s) then v.covered + v.z == h + NewIn(s) else Broken(v, h + NewIn(s))
  {
    AccountedStep(c, w, s, h);
    if !before {
      BrokenStays(c, w, s, h);
    } else if InFront(w, s) {
      KeptInFront(c, w, s, h);
    } else {
      BrokenByDelete(c, w, s, h);
      assert h + [] == h;
    }
  }

  lemma More(c: Config, steps: seq<Step>, s: Step)
    ensures Exec(c, START, steps + [s]) == Apply(c, Exec(c, START, steps), s)
    ensures AddsOf(steps + [s]) == AddsOf(steps) + NewIn(s)
    ensures Untrimmed(c, steps + [s]) <==> Untrimmed(c, steps) && Fits(c, Exec(c, START, steps), s)
    ensures InPlace(c, steps + [s]) <==> InPlace(c, steps) && InFront(Exec(c, START, steps), s)
  {
    assert (steps + [s])[..|steps|] == steps;
  }

  /** What the law says of a run. */
  ghost predicate Lawful(c: Config, steps: seq<Step>) {
    var w, h := Exec(c, START, steps), AddsOf(steps);
    Accounted(w, h) && if InPlace(c, steps) then w.covered + w.z == h else Broken(w, h)
  }

  lemma LawSnoc(c: Config, steps: seq<Step>, s: Step)
    requires Lawful(c, steps) && Fits(c, Exec(c, START, steps), s) && Increasing(AddsOf(steps) + NewIn(s))
    ensures Lawful(c, steps + [s])
  {
    More(c, steps, s);
    LawStep(c, Exec(c, START, steps), s, AddsOf(steps), InPlace(c, steps));
  }

  lemma {:induction false} Law(c: Config, steps: seq<Step>)
    requires Untrimmed(c, steps) && Increasing(AddsOf(steps))
    ensures Lawful(c, steps)
  {
    if steps == [] {
    } else {
      var before, s := steps[..|steps| - 1], steps[|steps| - 1];
      assert steps == before + [s];
      IncreasingBefore(steps, |steps| - 1);
      Law(c, before);
      LawSnoc(c, before, s);
    }
  }

  /**
   With any number of compressors in flight, as long as nothing is trimmed or expires: the summarised batches followed
   by the stored messages are the messages added, in order, if and only if every compressor that deleted found its own
   batch in front.
   */
  lemma ConservationExact(c: Config, steps: seq<Step>)
    requires Untrimmed(c, steps) && Increasing(AddsOf(steps))
    ensures var w := Exec(c, START, steps); w.covered + w.z == AddsOf(steps) <==> InPlace(c, steps)
  {
    Law(c, steps);
  }

  // ---- two compressors ----

  lemma {:induction false} CalmUntrimmed(c: Config, steps: seq<Step>)
    requires Calm(c, steps)
    ensures Untrimmed(c, steps)
  {
    if steps == [] {
    } else {
      CalmUntrimmed(c, steps[..|steps| - 1]);
    }
  }

  /** A task counts and reads while the set holds one message too many. */
  lemma Reads(c: Config, steps: seq<Step>, id: nat)
    requires Untrimmed(c, steps)
    requires var w := Exec(c, START, steps); |w.z| == Keep(c) + 1 && id in w.tasks && w.tasks[id] == Counting
    ensures var w, more := Exec(c, START, steps), steps + [Count(id)] + [Read(id)];
      && Untrimmed(c, more) && AddsOf(more) == AddsOf(steps)
      && Exec(c, START, more) == w.(tasks := w.tasks[id := Summarizing(w.z[..1])])
  {
    var w := Exec(c, START, steps);
    More(c, steps, Count(id));
    assert Exec(c, START, steps + [Count(id)]) == w.(tasks := w.tasks[id := Reading]);
    More(c, steps + [Count(id)], Read(id));
    assert w.tasks[id := Reading][id := Summarizing(w.z[..1])] == w.tasks[id := Summarizing(w.z[..1])];
  }

  /** It finishes: the oldest message is deleted, whichever it is by now. */
  lemma Finishes(c: Config, steps: seq<Step>, id: nat, batch: seq<Msg>)
    requires Untrimmed(c, steps) && |batch| == 1
    requires var w := Exec(c, START, steps); id in w.tasks && w.tasks[id] == Summarizing(batch) && w.z != []
    ensures var w, more := Exec(c, START, steps), steps + [Reply(id, "")] + [Store(id)] + [Delete(id)];
      && Untrimmed(c, more) && AddsOf(more) == AddsOf(steps)
      && Exec(c, START, more)
         == w.(z := w.z[1..], covered := w.covered + batch, tasks := w.tasks - {id}, summary := Some(""))
  {
    var w := Exec(c, START, steps);
    var s1 := steps + [Reply(id, "")];
    More(c, steps, Reply(id, ""));
    assert Exec(c, START, s1) == w.(tasks := w.tasks[id := Storing(batch, "")]);
    More(c, s1, Store(id));
    assert Exec(c, START, s1 + [Store(id)]).tasks == w.tasks[id := Deleting(batch)];
    More(c, s1 + [Store(id)], Delete(id));
    assert w.tasks[id := Deleting(batch)] - {id} == w.tasks - {id};
  }

  /** On some untrimmed run a message is neither stored nor in any summarised batch. */
  ghost predicate Loses(c: Config) {
    exists steps, m :: Untrimmed(c, steps) && Increasing(AddsOf(steps)) && m in AddsOf(steps)
                       && m !in Exec(c, START, steps).covered && m !in Exec(c, START, steps).z
  }

  /** Nothing has been deleted after `n` additions. */
  ghost predicate Full(c: Config, steps: seq<Step>, n: nat) {
    && Untrimmed(c, steps) && AddsOf(steps) == Marks(n)
    && Exec(c, START, steps).z == Marks(n) && Exec(c, START, steps).covered == []
  }

  ghost predicate At(c: Config, steps: seq<Step>, id: nat, t: Task) {
    id in Exec(c, START, steps).tasks && Exec(c, START, steps).tasks[id] == t
  }

  lemma BurstFull(c: Config, n: nat)
    requires 2 <= n <= c.window
    ensures Full(c, Burst(n), n) && At(c, Burst(n), 0, Counting) && At(c, Burst(n), 1, Counting)
  {
    BurstRun(c, n);
    BurstAdds(n);
    CalmUntrimmed(c, Burst(n));
  }

  const OLDEST := [Msg(1, "m")]

  lemma OneReads(c: Config, steps: seq<Step>, n: nat, id: nat, other: nat, t: Task)
    requires Full(c, steps, n) && n == Keep(c) + 1
    requires id != other && At(c, steps, id, Counting) && At(c, steps, other, t)
    ensures var more := steps + [Count(id)] + [Read(id)];
      Full(c, more, n) && At(c, more, id, Summarizing(OLDEST)) && At(c, more, other, t)
  {
    Reads(c, steps, id);
    assert Marks(n)[..1] == OLDEST;
  }

  /** Each of them deletes one message, so the second oldest is gone. */
  lemma BothDelete(c: Config, steps: seq<Step>, n: nat)
    requires n > 2 && Full(c, steps, n)
    requires At(c, steps, 0, Summarizing(OLDEST)) && At(c, steps, 1, Summarizing(OLDEST))
    ensures Loses(c)
  {
    var one := steps + [Reply(0, "")] + [Store(0)] + [Delete(0)];
    Finishes(c, steps, 0, OLDEST);
    assert At(c, one, 1, Summarizing(OLDEST)) && Exec(c, START, one).z == Marks(n)[1..];
    LastDeletes(c, one, n);
  }

  lemma LastDeletes(c: Config, steps: seq<Step>, n: nat)
    requires n > 2 && Untrimmed(c, steps) && AddsOf(steps) == Marks(n) && At(c, steps, 1, Summarizing(OLDEST))
    requires Exec(c, START, steps).z == Marks(n)[1..] && Exec(c, START, steps).covered == [] + OLDEST
    ensures Loses(c)
  {
    var more := steps + [Reply(1, "")] + [Store(1)] + [Delete(1)];
    Finishes(c, steps, 1, OLDEST);
    SecondGone(n, Exec(c, START, more));
    assert Increasing(AddsOf(more));
  }

  lemma SecondGone(n: nat, w: World)
    requires n > 2 && w.z == Marks(n)[1..][1..] && w.covered == [] + OLDEST + OLDEST
    ensures var m := Msg(2, "m"); m in Marks(n) && m !in w.covered && m !in w.z
  {
    assert Marks(n)[1] == Msg(2, "m");
  }

  /** Two compressors that have read the same set can lose a message, in every configuration that lets them start. */
  lemma TwoCompressorsLose(c: Config)
    requires c.window > Keep(c)
    ensures Loses(c)
  {
    var n := Keep(c) + 1;
    BurstFull(c, n);
    OneReads(c, Burst(n), n, 0, 1, Counting);
    var one := Burst(n) + [Count(0)] + [Read(0)];
    OneReads(c, one, n, 1, 0, Summarizing(OLDEST));
    BothDelete(c, one + [Count(1)] + [Read(1)], n);
  }

  lemma {:induction false} NothingDeleted(c: Config, steps: seq<Step>)
    requires c.window <= Keep(c)
    ensures InPlace(c, steps)
  {
    if steps == [] {
    } else {
      NothingDeleted(c, steps[..|steps| - 1]);
      SmallWindowRun(c, steps[..|steps| - 1]);
    }
  }

  /** No untrimmed run loses a message exactly when no compressor can start. */
  lemma LossExact(c: Config)
    ensures c.window <= Keep(c) <==> !Loses(c)
  {
    if c.window <= Keep(c) {
      forall steps, m | Untrimmed(c, steps) && Increasing(AddsOf(steps)) && m in AddsOf(steps)
        ensures m in Exec(c, START, steps).covered || m in Exec(c, START, steps).z
      {
        NothingDeleted(c, steps);
        Law(c, steps);
      }
    } else {
      TwoCompressorsLose(c);
    }
  }
}
