/** The step after which compression can lose a message: a read while another compressor is past its own read. */
module CompressionRaces {
  import opened ShortTerm
  import opened MemoryRuns
  import opened CompressionLaw

  /** Does the step make a second compressor start on its batch? This can be observed before the step. */
  predicate Overlaps(c: Config, w: World, s: Step) {
    && s.Read? && s.id in w.tasks && w.tasks[s.id] == Reading && Plan(c, w.z) != []
    && exists i :: i in w.tasks && i != s.id && Compressing(w.tasks[i])
  }

  /** Some continuation without a further overlap leaves a message neither stored nor in any summarised batch. */
  ghost predicate CanLose(c: Config, w: World, h: seq<Msg>) {
    exists more, m :: CalmFrom(c, w, more) && Increasing(h + AddsOf(more)) && m in h + AddsOf(more)
                      && m !in Exec(c, w, more).covered && m !in Exec(c, w, more).z
  }

  // ---- without an overlap ----

  lemma NoOverlapKeeps(c: Config, w: World, s: Step)
    requires Sole(w) && Fits(c, w, s) && Increasing(w.z + NewIn(s)) && !Overlaps(c, w, s)
    ensures var v := Apply(c, w, s); Sole(v) && v.covered + v.z == w.covered + w.z + NewIn(s)
  {
    if CalmIn(c, w, s) {
      CalmStep(c, w, s);
    } else {
      assert w.covered + w.z + [] == w.covered + w.z;
    }
  }

  lemma CannotLose(c: Config, v: World, h: seq<Msg>)
    requires Sole(v) && v.covered + v.z == h
    ensures !CanLose(c, v, h)
  {
    forall more, m | CalmFrom(c, v, more) && Increasing(h + AddsOf(more)) && m in h + AddsOf(more)
      ensures m in Exec(c, v, more).covered || m in Exec(c, v, more).z
    {
      CalmConserves(c, v, more, h);
    }
  }

  // ---- after an overlap ----

  lemma CalmSnoc(c: Config, w: World, steps: seq<Step>, s: Step)
    requires CalmFrom(c, w, steps) && CalmIn(c, Exec(c, w, steps), s)
    ensures var more := steps + [s];
      CalmFrom(c, w, more) && Exec(c, w, more) == Apply(c, Exec(c, w, steps), s)
      && AddsOf(more) == AddsOf(steps) + NewIn(s)
  {
    assert (steps + [s])[..|steps|] == steps;
  }

  /** The compressor `id` of `w` has deleted, and nothing else has happened. */
  ghost predicate Finished(w: World, v: World, id: nat)
    requires id in w.tasks && Compressing(w.tasks[id])
  {
    var b := w.tasks[id].batch;
    v.z == DropFirst(w.z, |b|) && v.covered == w.covered + b && v.tasks == w.tasks - {id}
  }

  /** A compressor past its read runs to its end, whatever else is in flight. */
  lemma {:induction false} RunsToEnd(c: Config, w: World, before: seq<Step>, id: nat) returns (more: seq<Step>)
    requires CalmFrom(c, w, before)
    requires var u := Exec(c, w, before); id in u.tasks && Compressing(u.tasks[id])
    ensures CalmFrom(c, w, more) && AddsOf(more) == AddsOf(before)
    ensures Finished(Exec(c, w, before), Exec(c, w, more), id)
    decreases var t := Exec(c, w, before).tasks[id]; if t.Summarizing? then 2 else if t.Storing? then 1 else 0
  {
    var u := Exec(c, w, before);
    var t := u.tasks[id];
    var s := if t.Summarizing? then Reply(id, "") else if t.Storing? then Store(id) else Delete(id);
    CalmSnoc(c, w, before, s);
    more := before + [s];
    if !t.Deleting? {
      var next := Exec(c, w, more);
      assert next.tasks - {id} == u.tasks - {id} && next.tasks[id].batch == t.batch;
      more := RunsToEnd(c, w, more, id);
    }
  }

  /** Two batches from the front are deleted one after the other: the message after the longer one is gone. */
  lemma DeletedTwice(covered: seq<Msg>, z: seq<Msg>, a: seq<Msg>, b: seq<Msg>, m: Msg)
    requires Increasing(covered + z) && a <= z && b <= z && 0 < |a| < |z| && 0 < |b| < |z|
    requires m == z[if |a| < |b| then |b| else |a|]
    ensures m !in covered + a + b && m !in DropFirst(DropFirst(z, |a|), |b|)
  {
    var h, k := covered + z, |covered| + if |a| < |b| then |b| else |a|;
    assert h[k] == m;
    var gone := covered + a + b;
    forall n | 0 <= n < |gone| ensures gone[n] != m {
      assert gone[n] == h[if n < |covered| + |a| then n else n - |a|];
    }
    var left := DropFirst(DropFirst(z, |a|), |b|);
    forall i | 0 <= i < |left| ensures left[i] != m {
      assert left[i] == h[|covered| + |a| + |b| + i];
    }
  }

  lemma TwoLose(c: Config, v: World, i: nat, j: nat, h: seq<Msg>)
    requires i != j && i in v.tasks && j in v.tasks && Compressing(v.tasks[i]) && Compressing(v.tasks[j])
    requires var a, b := v.tasks[i].batch, v.tasks[j].batch;
      a <= v.z && b <= v.z && 0 < |a| < |v.z| && 0 < |b| < |v.z|
    requires v.covered + v.z == h && Increasing(h)
    ensures CanLose(c, v, h)
  {
    var a, b := v.tasks[i].batch, v.tasks[j].batch;
    var one := RunsToEnd(c, v, [], i);
    var two := RunsToEnd(c, v, one, j);
    var m := v.z[if |a| < |b| then |b| else |a|];
    DeletedTwice(v.covered, v.z, a, b, m);
    assert m in h && h + AddsOf(two) == h;
  }

  /**
   After every calm run, a step without trimming or expiry is followed by a continuation without further overlaps that
   loses a message exactly if it is the read of a second compressor.
   */
  lemma OverlapExact(c: Config, steps: seq<Step>, s: Step)
    requires Calm(c, steps) && Fits(c, Exec(c, START, steps), s) && Increasing(AddsOf(steps) + NewIn(s))
    ensures var w := Exec(c, START, steps);
      Overlaps(c, w, s) <==> CanLose(c, Apply(c, w, s), AddsOf(steps) + NewIn(s))
  {
    var w, h := Exec(c, START, steps), AddsOf(steps) + NewIn(s);
    assert h[..|AddsOf(steps)|] == AddsOf(steps);
    CompressionConserves(c, steps);
    assert h[|w.covered|..] == w.z + NewIn(s);
    if Overlaps(c, w, s) {
      var i :| i in w.tasks && i != s.id && Compressing(w.tasks[i]);
      TwoLose(c, Apply(c, w, s), i, s.id, h);
    } else {
      NoOverlapKeeps(c, w, s);
      CannotLose(c, Apply(c, w, s), h);
    }
  }
}
