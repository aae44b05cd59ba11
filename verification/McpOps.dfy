/**
 What becomes of an operation on an MCP server, over every interleaving: how it ends, how long a failed server is waited
 for, and what a finished discovery leaves in the registry.
 */
module McpOps {
  import opened Common
  import opened Names
  import opened Registry
  import opened McpManager
  import opened McpRuns

  /** Is the operation the handler of a failed server, before it has reconnected? */
  predicate Handling(op: Op) {
    op.Marking? || op.Sleeping? || op.Dropping? || op.Reconnecting?
  }

  /** The backoff a handler carries. */
  function Carried(op: Op): Option<nat> {
    match op
    case Sleeping(_, b) => Some(b)
    case Dropping(_, _, b) => Some(b)
    case Reconnecting(_, _, b) => Some(b)
    case _ => None
  }

  /** An operation ends when its connection fails, or after its last await, and in no other way. */
  lemma EndsExact(w: World, step: Step, i: nat)
    requires i in w.ops
    ensures i !in Apply(w, step).ops <==>
      || (w.ops[i].Connecting? && step == ConnectReply(i, false))
      || ((w.ops[i].Updating? || w.ops[i].Disconnecting?) && step == Continue(i))
    ensures i in Apply(w, step).ops ==> Apply(w, step).ops[i].server == w.ops[i].server
  {
  }

  /**
   The handler of a failed server never gives up: it goes on until a reconnection succeeds, and then it discovers the
   tools again, of the same client and with a clean slate.
   */
  lemma HandlerPersists(w: World, step: Step, i: nat)
    requires i in w.ops && Handling(w.ops[i])
    ensures var v := Apply(w, step);
      && i in v.ops
      && (!Handling(v.ops[i]) <==> w.ops[i].Reconnecting? && step == ReconnectReply(i, true))
      && (!Handling(v.ops[i]) ==>
            && v.ops[i] == Listing(w.ops[i].server, w.ops[i].client)
            && forall k | k in v.m.tools :: !StartsWith(k, Prefix(MCP, w.ops[i].server)))
  {
  }

  // ---- how long it waits ----

  /** How often the handler `i` has failed to reconnect since it started. */
  function Failures(others: Tools, steps: seq<Step>, i: nat): nat {
    if steps == [] then 0
    else
      var n := |steps| - 1;
      var w := Exec(Init(others), steps[..n]);
      if i !in w.ops || !Handling(w.ops[i]) then 0
      else
        Failures(others, steps[..n], i)
        + if w.ops[i].Reconnecting? && steps[n] == ReconnectReply(i, false) then 1 else 0
  }

  /** The handler `op` carries the sleep that `f` failures make. */
  predicate CarriesFor(op: Op, f: nat) {
    && (Carried(op).Some? ==> Carried(op).value == Backoff(f))
    && (op.Marking? ==> f == 0)
  }

  lemma CarriesOn(w: World, step: Step, i: nat, f: nat)
    requires i in w.ops && Handling(w.ops[i]) ==> CarriesFor(w.ops[i], f)
    requires i !in w.ops || !Handling(w.ops[i]) ==> f == 0
    ensures var v := Apply(w, step);
      i in v.ops && Handling(v.ops[i]) ==>
        var failed := i in w.ops && w.ops[i].Reconnecting? && step == ReconnectReply(i, false);
        CarriesFor(v.ops[i], f + if failed then 1 else 0)
  {
  }

  lemma {:induction false} CarriesAll(others: Tools, steps: seq<Step>, i: nat)
    ensures var w := Exec(Init(others), steps);
      && (i in w.ops && Handling(w.ops[i]) ==> CarriesFor(w.ops[i], Failures(others, steps, i)))
  {
    if steps == [] {
    } else {
      var n := |steps| - 1;
      var w := Exec(Init(others), steps[..n]);
      CarriesAll(others, steps[..n], i);
      CarriesOn(w, steps[n], i, if i in w.ops && Handling(w.ops[i]) then Failures(others, steps[..n], i) else 0);
    }
  }

  /** On every run, each sleep of a handler is doubled per failed attempt, up to a minute, and by nothing else. */
  lemma BackoffExact(others: Tools, steps: seq<Step>, i: nat)
    requires var w := Exec(Init(others), steps); i in w.ops && Carried(w.ops[i]).Some?
    ensures var w := Exec(Init(others), steps);
      Carried(w.ops[i]).value == Min(Pow2(Failures(others, steps, i)), MAX_BACKOFF)
  {
    CarriesAll(others, steps, i);
    BackoffClosedForm(Failures(others, steps, i));
  }

  // ---- what a discovery leaves ----

  lemma NotListed(w: World, servers: set<string>, s: string, t: string)
    requires Partition(w) && w.listed.Keys <= servers && PairwisePrefixFree(servers)
    requires s in w.listed && w.listed[s] == {}
    ensures ToolName(MCP, s, t) !in w.m.tools
  {
    if ToolName(MCP, s, t) in w.m.tools {
      ToolInNamespace(s, t);
      var r, u :| Reported(w, r, u) && ToolName(MCP, s, t) == ToolName(MCP, r, u);
      ToolNamesInjective(MCP, s, r, t, u);
    }
  }

  lemma ToolInNamespace(s: string, t: string)
    ensures StartsWith(ToolName(MCP, s, t), NAMESPACE)
  {
    assert ToolName(MCP, s, t) == NAMESPACE + (s + SEP + t);
  }

  lemma AddedExactly(tools: Tools, s: string, c: nat, names: seq<string>, t: string)
    requires ToolName(MCP, s, t) !in tools
    ensures var k, r := ToolName(MCP, s, t), WithAll(tools, Prefix(MCP, s), names, HandlerFor(c));
      (k in r <==> t in names) && (k in r ==> r[k] == McpTool(c, t))
  {
    WithAllIs(tools, Prefix(MCP, s), names, HandlerFor(c));
    forall n | Prefix(MCP, s) + n == ToolName(MCP, s, t) ensures n == t {
      assert (Prefix(MCP, s) + n)[|Prefix(MCP, s)|..] == n && ToolName(MCP, s, t) == Prefix(MCP, s) + t;
    }
    assert ToolName(MCP, s, t) == Prefix(MCP, s) + t;
  }

  /** The entries of the server `s` are the tools `names`, routed to its stored client `c`. */
  ghost predicate Serves(m: Mgr, s: string, c: nat, names: seq<string>) {
    && s in m.clients && m.clients[s] == c
    && forall t ::
         var k := ToolName(MCP, s, t);
         (k in m.tools <==> t in names) && (k in m.tools ==> m.tools[k] == McpTool(c, t))
  }

  lemma ListedExact(w: World, servers: set<string>, i: nat, found: Option<seq<string>>)
    requires Inv(w, servers) && PairwisePrefixFree(servers) && i in w.ops && w.ops[i].Listing?
    ensures Serves(Apply(w, ListReply(i, found)).m, w.ops[i].server, w.ops[i].client,
                   if found.Some? then found.value else [])
  {
    var s, c := w.ops[i].server, w.ops[i].client;
    assert OpSound(w, w.ops[i]);
    forall t ensures ToolName(MCP, s, t) !in w.m.tools { NotListed(w, servers, s, t); }
    if found.Some? {
      var r := WithAll(w.m.tools, Prefix(MCP, s), found.value, HandlerFor(c));
      forall t ensures var k := ToolName(MCP, s, t);
          (k in r <==> t in found.value) && (k in r ==> r[k] == McpTool(c, t))
      {
        AddedExactly(w.m.tools, s, c, found.value, t);
      }
    }
  }

  /**
   On every run over prefix-free servers, when the reply of a discovery arrives: if it succeeded, the server's entries
   are exactly the tools it reported, routed to the client that was asked; if it failed, there are none.
   */
  lemma DiscoveryExact(others: Tools, steps: seq<Step>, servers: set<string>, i: nat, found: Option<seq<string>>)
    requires PairwisePrefixFree(servers) && StepsOver(steps, servers)
    requires var w := Exec(Init(others), steps); i in w.ops && w.ops[i].Listing?
    ensures var w := Exec(Init(others), steps);
      Serves(Apply(w, ListReply(i, found)).m, w.ops[i].server, w.ops[i].client, if found.Some? then found.value else [])
  {
    RunKeeps(others, steps, servers);
    ListedExact(Exec(Init(others), steps), servers, i, found);
  }
}
