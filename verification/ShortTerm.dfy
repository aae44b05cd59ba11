/**
 Short-term memory of one thread: a Redis sorted set trimmed by rank, and a summary key. Each method is one atomic
 exchange with Redis; `MemoryRuns` lets additions and background compressors interleave.
 */
module ShortTerm {
  import opened Common

  /** A stored member: its score is its timestamp, and its text contains the timestamp. */
  datatype Msg = Msg(score: int, text: string)

  datatype Config = Config(window: nat, threshold: nat)

  const SHIPPED := Config(20, 15)

  /** How many recent messages a compressor leaves in place. */
  function Keep(c: Config): nat {
    c.threshold + 5
  }

  // ---- the sorted set ----

  predicate TextBefore(a: string, b: string) {
    if b == "" then false
    else if a == "" then true
    else a[0] < b[0] || (a[0] == b[0] && TextBefore(a[1..], b[1..]))
  }

  /** Members are ordered by score, and by their bytes when scores are equal. */
  predicate Before(a: Msg, b: Msg) {
    a.score < b.score || (a.score == b.score && TextBefore(a.text, b.text))
  }

  function Insert(z: seq<Msg>, m: Msg): seq<Msg> {
    if z == [] then [m]
    else if Before(z[|z| - 1], m) then z + [m]
    else Insert(z[..|z| - 1], m) + [z[|z| - 1]]
  }

  /** `ZADD`: a member that is already there keeps its place, since its score is part of it. */
  function ZAdd(z: seq<Msg>, m: Msg): seq<Msg> {
    if m in z then z else Insert(z, m)
  }

  /** `ZREMRANGEBYRANK key 0 n-1`. */
  function DropFirst(z: seq<Msg>, n: nat): seq<Msg> {
    if n <= |z| then z[n..] else []
  }

  /** `ZREMRANGEBYRANK key 0 -(window + 1)`. */
  function Trim(z: seq<Msg>, window: nat): seq<Msg> {
    if |z| <= window then z else z[|z| - window..]
  }

  function Added(c: Config, z: seq<Msg>, m: Msg): seq<Msg> {
    Trim(ZAdd(z, m), c.window)
  }

  /** The messages a compressor decides to summarise, none when there is nothing to compress. */
  function Plan(c: Config, z: seq<Msg>): seq<Msg> {
    if |z| <= c.threshold || |z| <= Keep(c) then [] else z[..|z| - Keep(c)]
  }

  class ThreadMemory {
    const config: Config
    var members: seq<Msg>
    var summary: Option<string>

    constructor (config: Config)
      ensures this.config == config && members == [] && summary == None
    {
      this.config := config;
      members, summary := [], None;
    }

    /** The transaction of `add_message`: add, then trim. */
    method AddTransaction(m: Msg)
      modifies this`members
      ensures members == Added(config, old(members), m)
    {
      members := ZAdd(members, m);
      if |members| > config.window {
        members := members[|members| - config.window..];
      }
    }

    /** The check after the transaction: is a compressor started? */
    method NeedsCompression() returns (b: bool)
      ensures b == (|members| > config.threshold)
    {
      return |members| > config.threshold;
    }

    /** The oldest members, so that exactly the newest `Keep` are left; nothing when there are no more than that. */
    method ReadForCompression() returns (old_: seq<Msg>)
      ensures old_ == Plan(config, members)
      ensures old_ <= members && |members| - |old_| == if |members| <= Keep(config) then |members| else Keep(config)
    {
      var messageCount := |members|;
      if messageCount <= config.threshold {
        return [];
      }
      var oldCount := messageCount - Keep(config);
      if oldCount <= 0 {
        return [];
      }
      return members[..oldCount];
    }

    /** `get_context`: the summary and the raw messages, read in one transaction. */
    method GetContext() returns (text: Option<string>, messages: seq<Msg>)
      ensures text == summary && messages == members
    {
      return summary, members;
    }

    method StoreSummary(text: string)
      modifies this`summary
      ensures summary == Some(text)
    {
      summary := Some(text);
    }

    method DeleteOldest(count: nat)
      modifies this`members
      ensures members == DropFirst(old(members), count)
    {
      members := if count <= |members| then members[count..] else [];
    }
  }

  // ---- the set under increasing timestamps ----

  predicate Increasing(ms: seq<Msg>) {
    forall i, j | 0 <= i < j < |ms| :: ms[i].score < ms[j].score
  }

  lemma AppendNewest(z: seq<Msg>, m: Msg)
    requires Increasing(z + [m])
    ensures ZAdd(z, m) == z + [m]
  {
    var s := z + [m];
    assert s[|z|] == m;
    assert forall i | 0 <= i < |z| :: s[i] == z[i];
    if z != [] {
      assert s[|z| - 1].score < s[|z|].score;
    }
  }

  lemma AddNewest(c: Config, z: seq<Msg>, m: Msg)
    requires Increasing(z + [m])
    ensures Added(c, z, m) == Trim(z + [m], c.window)
  {
    AppendNewest(z, m);
  }

  function Newer(z: seq<Msg>, score: int): set<Msg> {
    set n | n in z && n.score > score
  }

  /**
   What a compressor summarises: the messages older than the newest `Keep`, whatever the threshold; it finds nothing to
   do exactly when there are no more than that.
   */
  lemma PlanExact(c: Config, z: seq<Msg>, m: Msg)
    requires Increasing(z) && m in z
    ensures Plan(c, z) == [] <==> |z| <= Keep(c)
    ensures m in Plan(c, z) <==> |Newer(z, m.score)| >= Keep(c)
  {
    var k :| 0 <= k < |z| && z[k] == m;
    NewerCount(z, k);
    var old_ := Plan(c, z);
    if k < |old_| { assert old_[k] == m; }
    if m in old_ {
      var i :| 0 <= i < |old_| && old_[i] == m;
    }
  }

  lemma NewerSnoc(z: seq<Msg>, m: Msg, score: int)
    requires Increasing(z + [m]) && score < m.score
    ensures Newer(z + [m], score) == Newer(z, score) + {m} && m !in z
  {
    forall i | 0 <= i < |z| ensures z[i] != m {
      assert (z + [m])[i].score < (z + [m])[|z|].score;
    }
  }

  /** Newer messages are the ones that stand later. */
  lemma {:induction false} NewerCount(z: seq<Msg>, k: nat)
    requires Increasing(z) && k < |z|
    ensures |Newer(z, z[k].score)| == |z| - k - 1
    decreases |z|
  {
    var e := |z| - 1;
    assert z == z[..e] + [z[e]];
    if k == e {
      assert Newer(z, z[k].score) == {};
    } else {
      NewerCount(z[..e], k);
      NewerSnoc(z[..e], z[e], z[k].score);
    }
  }

}
