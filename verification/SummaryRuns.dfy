/** Where the stored summary comes from, over every interleaving. */
module SummaryRuns {
  import opened Common
  import opened ShortTerm
  import opened MemoryRuns

  predicate Is(w: World, id: nat, t: Task) {
    id in w.tasks && w.tasks[id] == t
  }

  /** At step `i` the model answers the compressor `id`, which summarises the batch `b`. */
  predicate RepliedAt(c: Config, steps: seq<Step>, i: nat, id: nat, b: seq<Msg>, text: string) {
    i < |steps| && steps[i] == Reply(id, text) && Is(Exec(c, START, steps[..i]), id, Summarizing(b))
  }

  // ---- where a batch comes from ----

  /** At step `j` the set held more than the threshold, and this was counted for the task `id`. */
  predicate CountedAt(c: Config, steps: seq<Step>, j: nat, id: nat) {
    j < |steps| && steps[j] == Count(id) && |Exec(c, START, steps[..j]).z| > c.threshold
  }

  /** At step `j` the compressor `id` read the set, and `b` is all of it but the newest `Keep`. */
  predicate ReadAt(c: Config, steps: seq<Step>, j: nat, id: nat, b: seq<Msg>) {
    && j < |steps| && steps[j] == Read(id)
    && var z := Exec(c, START, steps[..j]).z; |b| + Keep(c) == |z| && b == z[..|b|] && b != []
  }

  ghost predicate Counted(c: Config, steps: seq<Step>, id: nat) {
    exists j: nat :: CountedAt(c, steps, j, id)
  }

  ghost predicate WasRead(c: Config, steps: seq<Step>, id: nat, b: seq<Msg>) {
    exists j: nat :: ReadAt(c, steps, j, id, b) && Counted(c, steps[..j], id)
  }

  lemma CountedLater(c: Config, steps: seq<Step>, s: Step, id: nat)
    requires Counted(c, steps, id)
    ensures Counted(c, steps + [s], id)
  {
    var j: nat :| CountedAt(c, steps, j, id);
    assert (steps + [s])[..j] == steps[..j];
    assert CountedAt(c, steps + [s], j, id);
  }

  lemma ReadLater(c: Config, steps: seq<Step>, s: Step, id: nat, b: seq<Msg>)
    requires WasRead(c, steps, id, b)
    ensures WasRead(c, steps + [s], id, b)
  {
    var j: nat :| ReadAt(c, steps, j, id, b) && Counted(c, steps[..j], id);
    assert (steps + [s])[..j] == steps[..j];
    assert ReadAt(c, steps + [s], j, id, b);
  }

  /** A task that is to read was counted over the threshold. */
  lemma {:induction false} ReadingCounted(c: Config, steps: seq<Step>, id: nat)
    requires Is(Exec(c, START, steps), id, Reading)
    ensures Counted(c, steps, id)
  {
    if steps != [] {
      var before, s := steps[..|steps| - 1], steps[|steps| - 1];
      assert before + [s] == steps;
      if Is(Exec(c, START, before), id, Reading) {
        ReadingCounted(c, before, id);
        CountedLater(c, before, s, id);
      } else {
        assert CountedAt(c, steps, |before|, id);
      }
    }
  }

  predicate Holds(w: World, id: nat, b: seq<Msg>) {
    id in w.tasks && Compressing(w.tasks[id]) && w.tasks[id].batch == b
  }

  lemma ReadNow(c: Config, w: World, s: Step, id: nat, b: seq<Msg>)
    requires Holds(Apply(c, w, s), id, b) && !Holds(w, id, b)
    ensures s == Read(id) && Is(w, id, Reading) && |b| + Keep(c) == |w.z| && b == w.z[..|b|] && b != []
  {
  }

  /**
   Every run: a batch that is being summarised, stored or deleted is what its compressor found in front when it read the
   set, all but the newest messages that are kept, and the set had been over the threshold when it was counted before.
   */
  lemma {:induction false} BatchExact(c: Config, steps: seq<Step>, id: nat, b: seq<Msg>)
    requires Holds(Exec(c, START, steps), id, b)
    ensures WasRead(c, steps, id, b)
  {
    if steps != [] {
      var before, s := steps[..|steps| - 1], steps[|steps| - 1];
      assert before + [s] == steps;
      if Holds(Exec(c, START, before), id, b) {
        BatchExact(c, before, id, b);
        ReadLater(c, before, s, id, b);
      } else {
        ReadNow(c, Exec(c, START, before), s, id, b);
        ReadingCounted(c, before, id);
        assert ReadAt(c, steps, |before|, id, b);
      }
    }
  }

  // ---- where the summary comes from ----

  /** Since step `j` no summary has been stored and none has expired. */
  predicate KeptSince(c: Config, steps: seq<Step>, j: nat) {
    forall k: nat | j <= k < |steps| :: !Stores(Exec(c, START, steps[..k]), steps[k]) && steps[k] != ExpireSummary
  }

  ghost predicate Answered(c: Config, steps: seq<Step>, id: nat, b: seq<Msg>, text: string) {
    exists i: nat :: RepliedAt(c, steps, i, id, b, text)
  }

  /** The last store was one of `text`, which the model gave to the compressor that stored it, for its batch. */
  ghost predicate StoredAt(c: Config, steps: seq<Step>, j: nat, text: string) {
    && j < |steps| && KeptSince(c, steps, j + 1) && steps[j].Store?
    && exists b :: Is(Exec(c, START, steps[..j]), steps[j].id, Storing(b, text))
                   && Answered(c, steps[..j], steps[j].id, b, text)
  }

  /** Nothing has been stored, or nothing since the summary expired. */
  ghost predicate NoneSince(c: Config, steps: seq<Step>, j: nat) {
    j <= |steps| && KeptSince(c, steps, j) && (j > 0 ==> steps[j - 1] == ExpireSummary)
  }

  lemma AnsweredLater(c: Config, steps: seq<Step>, s: Step, id: nat, b: seq<Msg>, text: string)
    requires Answered(c, steps, id, b, text)
    ensures Answered(c, steps + [s], id, b, text)
  {
    var i: nat :| RepliedAt(c, steps, i, id, b, text);
    assert (steps + [s])[..i] == steps[..i];
    assert RepliedAt(c, steps + [s], i, id, b, text);
  }

  lemma {:induction false} StoringAnswered(c: Config, steps: seq<Step>, id: nat, b: seq<Msg>, text: string)
    requires Is(Exec(c, START, steps), id, Storing(b, text))
    ensures Answered(c, steps, id, b, text)
  {
    if steps != [] {
      var n := |steps| - 1;
      var w := Exec(c, START, steps[..n]);
      assert steps[..n] + [steps[n]] == steps;
      if Is(w, id, Storing(b, text)) {
        StoringAnswered(c, steps[..n], id, b, text);
        AnsweredLater(c, steps[..n], steps[n], id, b, text);
      } else {
        assert RepliedAt(c, steps, n, id, b, text);
      }
    }
  }

  lemma KeptOn(c: Config, steps: seq<Step>, s: Step, j: nat)
    requires KeptSince(c, steps, j) && !Stores(Exec(c, START, steps), s) && s != ExpireSummary
    ensures KeptSince(c, steps + [s], j)
  {
    var more := steps + [s];
    forall k: nat | j <= k < |more| ensures !Stores(Exec(c, START, more[..k]), more[k]) && more[k] != ExpireSummary {
      assert more[..k] == steps[..k];
      if k == |steps| { assert steps[..k] == steps; }
    }
  }

  lemma StoredOn(c: Config, steps: seq<Step>, s: Step, j: nat, text: string)
    requires StoredAt(c, steps, j, text) && !Stores(Exec(c, START, steps), s) && s != ExpireSummary
    ensures StoredAt(c, steps + [s], j, text)
  {
    KeptOn(c, steps, s, j + 1);
    assert (steps + [s])[..j] == steps[..j];
  }

  ghost predicate Accounted(c: Config, steps: seq<Step>, summary: Option<string>) {
    if summary.Some? then exists j: nat :: StoredAt(c, steps, j, summary.value)
    else exists j: nat :: NoneSince(c, steps, j)
  }

  lemma KeptEnd(c: Config, steps: seq<Step>)
    ensures KeptSince(c, steps, |steps|)
  {
  }

  lemma StoresNow(c: Config, before: seq<Step>, s: Step)
    requires Stores(Exec(c, START, before), s)
    ensures Accounted(c, before + [s], Some(Exec(c, START, before).tasks[s.id].text))
  {
    var t, steps := Exec(c, START, before).tasks[s.id], before + [s];
    StoringAnswered(c, before, s.id, t.batch, t.text);
    KeptEnd(c, steps);
    assert steps[..|before|] == before && steps[|before|] == s;
    assert StoredAt(c, steps, |before|, t.text);
  }

  lemma ExpiresNow(c: Config, before: seq<Step>)
    ensures Accounted(c, before + [ExpireSummary], None)
  {
    KeptEnd(c, before + [ExpireSummary]);
    assert NoneSince(c, before + [ExpireSummary], |before| + 1);
  }

  lemma Continues(c: Config, before: seq<Step>, s: Step, summary: Option<string>)
    requires !Stores(Exec(c, START, before), s) && s != ExpireSummary && Accounted(c, before, summary)
    ensures Accounted(c, before + [s], summary)
  {
    if summary.Some? {
      var j: nat :| StoredAt(c, before, j, summary.value);
      StoredOn(c, before, s, j, summary.value);
    } else {
      var j: nat :| NoneSince(c, before, j);
      KeptOn(c, before, s, j);
      assert NoneSince(c, before + [s], j);
    }
  }

  /**
   Every run: the stored summary is the text that the model gave to the compressor that stored last, for the batch that
   compressor had read; there is none exactly if nothing was stored since the beginning or since it expired.
   */
  lemma {:induction false} SummaryExact(c: Config, steps: seq<Step>)
    ensures Accounted(c, steps, Exec(c, START, steps).summary)
  {
    if steps == [] {
      assert NoneSince(c, steps, 0);
    } else {
      var before, s := steps[..|steps| - 1], steps[|steps| - 1];
      var w := Exec(c, START, before);
      assert before + [s] == steps;
      SummaryExact(c, before);
      SummaryStep(c, w, s);
      if Stores(w, s) {
        StoresNow(c, before, s);
      } else if s == ExpireSummary {
        ExpiresNow(c, before);
      } else {
        Continues(c, before, s, w.summary);
      }
    }
  }

  lemma SummaryStep(c: Config, w: World, s: Step)
    ensures Apply(c, w, s).summary == if Stores(w, s) then Some(w.tasks[s.id].text)
                                      else if s == ExpireSummary then None else w.summary
  {
  }
}
