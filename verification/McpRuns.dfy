/**
 MCP operations interleaving at their awaits. An operation in flight is a program counter; one step runs one atomic
 segment. Operations on different servers overlap freely; the guard of each start keeps one operation per server in
 flight, which the repository's callers do not enforce. Skill tools and built-ins may change at any time.
 */
module McpRuns {
  import opened Common
  import opened Names
  import opened Registry
  import opened McpManager

  /** Where a coroutine awaits. */
  datatype Op =
    | Connecting(server: string, client: nat)
    | Listing(server: string, client: nat)
    | Updating(server: string)
    | Disconnecting(server: string)
    | Marking(server: string)
    | Sleeping(server: string, backoff: nat)
    | Dropping(server: string, client: nat, backoff: nat)
    | Reconnecting(server: string, client: nat, backoff: nat)

  /** `listed` records, for the statements below, what the stored client last reported. */
  datatype World = World(m: Mgr, ops: map<nat, Op>, nextClient: nat, listed: map<string, set<string>>)

  datatype Step =
    | StartConnect(id: nat, server: string)
    | StartDisconnect(id: nat, server: string)
    | StartFailure(id: nat, server: string)
    | ConnectReply(id: nat, ok: bool)
    | ListReply(id: nat, found: Option<seq<string>>)
    | Continue(id: nat)
    | Wake(id: nat)
    | ReconnectReply(id: nat, ok: bool)
    | Elsewhere(others: Tools)

  const NAMESPACE := MCP + SEP

  predicate Idle(w: World, id: nat, server: string) {
    id !in w.ops && forall i | i in w.ops :: w.ops[i].server != server
  }

  function SetOf(names: seq<string>): set<string> {
    set n | n in names
  }

  /** One step; a step that is not enabled changes nothing. */
  function Apply(w: World, step: Step): World {
    match step
    case StartConnect(id, s) =>
      if !Idle(w, id, s) then w
      else w.(ops := w.ops[id := Connecting(s, w.nextClient)], nextClient := w.nextClient + 1)
    case StartDisconnect(id, s) =>
      if !Idle(w, id, s) || s !in w.m.clients then w
      else w.(m := Disconnected(w.m, s), listed := w.listed - {s}, ops := w.ops[id := Disconnecting(s)])
    case StartFailure(id, s) =>
      if !Idle(w, id, s) || s !in w.m.clients then w else w.(ops := w.ops[id := Marking(s)])
    case Elsewhere(others) => w.(m := w.m.(tools := Merge(w.m.tools, others)))
    case _ => if step.id in w.ops then Resume(w, step.id, w.ops[step.id], step) else w
  }

  function Resume(w: World, id: nat, op: Op, step: Step): World {
    match (op, step)
    case (Connecting(s, c), ConnectReply(_, ok)) =>
      if !ok then w.(ops := w.ops - {id})
      else w.(m := Connected(w.m, s, c), listed := w.listed[s := {}], ops := w.ops[id := Listing(s, c)])
    case (Listing(s, c), ListReply(_, found)) =>
      w.(m := Listed(w.m, s, c, found), ops := w.ops[id := Updating(s)],
         listed := if found.Some? then w.listed[s := SetOf(found.value)] else w.listed)
    case (Updating(s), Continue(_)) => w.(ops := w.ops - {id})
    case (Disconnecting(s), Continue(_)) => w.(ops := w.ops - {id})
    case (Marking(s), Continue(_)) => w.(ops := w.ops[id := Sleeping(s, 1)])
    case (Sleeping(s, b), Wake(_)) =>
      if s !in w.m.clients then w else w.(ops := w.ops[id := Dropping(s, w.m.clients[s], b)])
    case (Dropping(s, c, b), Continue(_)) => w.(ops := w.ops[id := Reconnecting(s, c, b)])
    case (Reconnecting(s, c, b), ReconnectReply(_, ok)) =>
      if !ok then w.(ops := w.ops[id := Sleeping(s, NextBackoff(b))])
      else w.(m := Cleared(w.m, s), listed := w.listed[s := {}], ops := w.ops[id := Listing(s, c)])
    case _ => w
  }

  /** Other code may change any entry outside the `mcp__` namespace. */
  function Merge(tools: Tools, others: Tools): Tools {
    map k | k in tools.Keys + others.Keys && (if StartsWith(k, NAMESPACE) then k in tools else k in others) ::
      if StartsWith(k, NAMESPACE) then tools[k] else others[k]
  }

  function Exec(w: World, steps: seq<Step>): World {
    if steps == [] then w else Apply(Exec(w, steps[..|steps| - 1]), steps[|steps| - 1])
  }

  function Init(others: Tools): World {
    World(Mgr(map[], Merge(map[], others)), map[], 0, map[])
  }

  // ---- the registry is the disjoint union of what the servers reported ----

  predicate Reported(w: World, s: string, t: string) {
    s in w.listed && t in w.listed[s]
  }

  /**
   The `mcp__` entries are exactly the tools last reported by the stored clients, each routed to the stored client of
   its server.
   */
  ghost predicate Partition(w: World) {
    && w.listed.Keys == w.m.clients.Keys
    && (forall s, t | Reported(w, s, t) ::
          ToolName(MCP, s, t) in w.m.tools && w.m.tools[ToolName(MCP, s, t)] == McpTool(w.m.clients[s], t))
    && (forall k | k in w.m.tools && StartsWith(k, NAMESPACE) ::
          exists s, t :: Reported(w, s, t) && k == ToolName(MCP, s, t))
  }

  /** A coroutine relies on the client it holds, and on a clean slate while it lists. */
  predicate OpSound(w: World, op: Op) {
    match op
    case Listing(s, c) => s in w.m.clients && w.m.clients[s] == c && s in w.listed && w.listed[s] == {}
    case Marking(s) => s in w.m.clients
    case Sleeping(s, _) => s in w.m.clients
    case Dropping(s, c, _) => s in w.m.clients && w.m.clients[s] == c
    case Reconnecting(s, c, _) => s in w.m.clients && w.m.clients[s] == c
    case _ => true
  }

  ghost predicate Inv(w: World, servers: set<string>) {
    && Partition(w)
    && w.m.clients.Keys <= servers
    && (forall i | i in w.ops :: w.ops[i].server in servers && OpSound(w, w.ops[i]))
    && (forall i, j | i in w.ops && j in w.ops && i != j :: w.ops[i].server != w.ops[j].server)
  }

  /** Clearing a server's prefix forgets exactly what that server reported. */
  lemma ClearKeeps(w: World, v: World, s: string, servers: set<string>)
    requires Partition(w) && PairwisePrefixFree(servers) && w.m.clients.Keys <= servers && s in servers
    requires v.m.tools == Without(w.m.tools, Prefix(MCP, s))
    requires v.listed.Keys == v.m.clients.Keys
    requires s in v.listed ==> v.listed[s] == {}
    requires forall r | r != s :: r in v.listed <==> r in w.listed
    requires forall r | r != s && r in w.listed :: v.listed[r] == w.listed[r] && v.m.clients[r] == w.m.clients[r]
    ensures Partition(v)
  {
    forall r, t | Reported(v, r, t)
      ensures ToolName(MCP, r, t) in v.m.tools && v.m.tools[ToolName(MCP, r, t)] == McpTool(v.m.clients[r], t)
    {
      assert r != s && Reported(w, r, t);
      ForeignTool(MCP, s, r, t);
    }
    forall k | k in v.m.tools && StartsWith(k, NAMESPACE)
      ensures exists r, t :: Reported(v, r, t) && k == ToolName(MCP, r, t)
    {
      var r, t :| Reported(w, r, t) && k == ToolName(MCP, r, t);
      assert Reported(v, r, t);
    }
  }

  /** What a report registers leaves every other server's tools routed as they were. */
  lemma ListRoutes(w: World, v: World, s: string, c: nat, names: seq<string>, servers: set<string>)
    requires Partition(w) && PairwisePrefixFree(servers) && w.m.clients.Keys <= servers && s in servers
    requires s in w.m.clients && w.m.clients[s] == c && w.listed[s] == {}
    requires v == w.(m := Listed(w.m, s, c, Some(names)), listed := w.listed[s := SetOf(names)], ops := v.ops)
    ensures forall r, t | Reported(v, r, t) ::
      ToolName(MCP, r, t) in v.m.tools && v.m.tools[ToolName(MCP, r, t)] == McpTool(v.m.clients[r], t)
  {
    WithAllIs(w.m.tools, Prefix(MCP, s), names, HandlerFor(c));
    forall r, t | Reported(v, r, t)
      ensures ToolName(MCP, r, t) in v.m.tools && v.m.tools[ToolName(MCP, r, t)] == McpTool(v.m.clients[r], t)
    {
      if r != s {
        assert Reported(w, r, t);
        ForeignTool(MCP, s, r, t);
        assert forall n | n in names :: ToolName(MCP, r, t) != Prefix(MCP, s) + n;
      }
    }
  }

  /** Registering what a server reports adds exactly that. */
  lemma ListKeeps(w: World, v: World, s: string, c: nat, names: seq<string>, servers: set<string>)
    requires Partition(w) && PairwisePrefixFree(servers) && w.m.clients.Keys <= servers && s in servers
    requires s in w.m.clients && w.m.clients[s] == c && w.listed[s] == {}
    requires v == w.(m := Listed(w.m, s, c, Some(names)), listed := w.listed[s := SetOf(names)], ops := v.ops)
    ensures Partition(v)
  {
    ListRoutes(w, v, s, c, names, servers);
    WithAllIs(w.m.tools, Prefix(MCP, s), names, HandlerFor(c));
    forall k | k in v.m.tools && StartsWith(k, NAMESPACE)
      ensures exists r, t :: Reported(v, r, t) && k == ToolName(MCP, r, t)
    {
      if n :| n in names && k == Prefix(MCP, s) + n {
        assert Reported(v, s, n) && k == ToolName(MCP, s, n);
      } else {
        var r, t :| Reported(w, r, t) && k == ToolName(MCP, r, t);
        assert Reported(v, r, t);
      }
    }
  }

  /** Changes outside the namespace, and changes that touch neither clients nor reports, keep the partition. */
  lemma SameKeeps(w: World, v: World)
    requires Partition(w)
    requires v.m.clients == w.m.clients && v.listed == w.listed
    requires forall k | StartsWith(k, NAMESPACE) ::
      (k in v.m.tools <==> k in w.m.tools) && (k in w.m.tools ==> v.m.tools[k] == w.m.tools[k])
    ensures Partition(v)
  {
    forall r, t | Reported(v, r, t)
      ensures ToolName(MCP, r, t) in v.m.tools && v.m.tools[ToolName(MCP, r, t)] == McpTool(v.m.clients[r], t)
    {
      assert Reported(w, r, t);
    }
    forall k | k in v.m.tools && StartsWith(k, NAMESPACE)
      ensures exists r, t :: Reported(v, r, t) && k == ToolName(MCP, r, t)
    {
      var r, t :| Reported(w, r, t) && k == ToolName(MCP, r, t);
      assert Reported(v, r, t);
    }
  }

  predicate StepOver(step: Step, servers: set<string>) {
    match step
    case StartConnect(_, s) => s in servers
    case StartDisconnect(_, s) => s in servers
    case StartFailure(_, s) => s in servers
    case _ => true
  }

  lemma StartKeeps(w: World, step: Step, servers: set<string>)
    requires Inv(w, servers) && PairwisePrefixFree(servers) && StepOver(step, servers)
    requires step.StartConnect? || step.StartDisconnect? || step.StartFailure?
    ensures Inv(Apply(w, step), servers)
  {
    var v := Apply(w, step);
    if step.StartDisconnect? && v != w {
      ClearKeeps(w, v, step.server, servers);
    } else {
      SameKeeps(w, v);
    }
  }

  lemma ReplyPartition(w: World, id: nat, step: Step, servers: set<string>)
    requires Inv(w, servers) && PairwisePrefixFree(servers) && id in w.ops
    requires step.ConnectReply? || step.ReconnectReply?
    ensures Partition(Resume(w, id, w.ops[id], step))
  {
    var v := Resume(w, id, w.ops[id], step);
    if v.ops.Keys == w.ops.Keys && v.ops[id].Listing? && !w.ops[id].Listing? {
      ClearKeeps(w, v, w.ops[id].server, servers);
    } else {
      SameKeeps(w, v);
    }
  }

  lemma ResumePartition(w: World, id: nat, step: Step, servers: set<string>)
    requires Inv(w, servers) && PairwisePrefixFree(servers) && id in w.ops
    ensures Partition(Resume(w, id, w.ops[id], step))
  {
    var v := Resume(w, id, w.ops[id], step);
    if step.ConnectReply? || step.ReconnectReply? {
      ReplyPartition(w, id, step, servers);
    } else if w.ops[id].Listing? && step.ListReply? && step.found.Some? {
      ListKeeps(w, v, w.ops[id].server, w.ops[id].client, step.found.value, servers);
    } else {
      SameKeeps(w, v);
    }
  }

  lemma OwnOp(w: World, id: nat, step: Step)
    requires id in w.ops && OpSound(w, w.ops[id])
    ensures var v := Resume(w, id, w.ops[id], step);
      id in v.ops ==> v.ops[id].server == w.ops[id].server && OpSound(v, v.ops[id])
  {
  }

  lemma OtherOp(w: World, id: nat, step: Step, i: nat)
    requires id in w.ops && i in w.ops && i != id && w.ops[i].server != w.ops[id].server && OpSound(w, w.ops[i])
    ensures var v := Resume(w, id, w.ops[id], step); i in v.ops && v.ops[i] == w.ops[i] && OpSound(v, v.ops[i])
  {
  }

  lemma ResumeOps(w: World, id: nat, step: Step)
    requires id in w.ops
    requires forall i, j | i in w.ops && j in w.ops && i != j :: w.ops[i].server != w.ops[j].server
    requires forall i | i in w.ops :: OpSound(w, w.ops[i])
    ensures var v := Resume(w, id, w.ops[id], step);
      && v.ops.Keys <= w.ops.Keys
      && (forall i | i in v.ops :: v.ops[i].server == w.ops[i].server && OpSound(v, v.ops[i]))
  {
    var v := Resume(w, id, w.ops[id], step);
    assert v.ops.Keys <= w.ops.Keys;
    forall i | i in v.ops ensures v.ops[i].server == w.ops[i].server && OpSound(v, v.ops[i]) {
      if i == id {
        OwnOp(w, id, step);
      } else {
        OtherOp(w, id, step, i);
      }
    }
  }

  lemma ResumeKeeps(w: World, id: nat, step: Step, servers: set<string>)
    requires Inv(w, servers) && PairwisePrefixFree(servers) && id in w.ops
    ensures Inv(Resume(w, id, w.ops[id], step), servers)
  {
    ResumePartition(w, id, step, servers);
    ResumeOps(w, id, step);
  }

  lemma StepKeeps(w: World, step: Step, servers: set<string>)
    requires Inv(w, servers) && PairwisePrefixFree(servers) && StepOver(step, servers)
    ensures Inv(Apply(w, step), servers)
  {
    match step
    case StartConnect(_, _) => StartKeeps(w, step, servers);
    case StartDisconnect(_, _) => StartKeeps(w, step, servers);
    case StartFailure(_, _) => StartKeeps(w, step, servers);
    case Elsewhere(others) => SameKeeps(w, Apply(w, step));
    case _ => if step.id in w.ops { ResumeKeeps(w, step.id, step, servers); }
  }

  ghost predicate StepsOver(steps: seq<Step>, servers: set<string>) {
    forall i | 0 <= i < |steps| :: StepOver(steps[i], servers)
  }

  lemma {:induction false} RunKeeps(others: Tools, steps: seq<Step>, servers: set<string>)
    requires PairwisePrefixFree(servers) && StepsOver(steps, servers)
    ensures Inv(Exec(Init(others), steps), servers)
  {
    if steps == [] {
    } else {
      RunKeeps(others, steps[..|steps| - 1], servers);
      StepKeeps(Exec(Init(others), steps[..|steps| - 1]), steps[|steps| - 1], servers);
    }
  }

  /**
   Ownership: in every interleaving of operations on servers with prefix-free names, every `mcp__` entry was last
   reported by exactly one server and is routed to the client currently stored for it, and nothing reported is missing.
   */
  lemma Ownership(others: Tools, steps: seq<Step>, servers: set<string>, k: string)
    requires PairwisePrefixFree(servers) && StepsOver(steps, servers) && StartsWith(k, NAMESPACE)
    ensures var w := Exec(Init(others), steps);
      && (k in w.m.tools <==> exists s, t :: Reported(w, s, t) && k == ToolName(MCP, s, t))
      && (forall s, t | Reported(w, s, t) && k == ToolName(MCP, s, t) ::
            s in w.m.clients && w.m.tools[k] == McpTool(w.m.clients[s], t))
      && (forall s, t, s', t' | Reported(w, s, t) && Reported(w, s', t')
            && k == ToolName(MCP, s, t) && k == ToolName(MCP, s', t') :: s == s' && t == t')
  {
    RunKeeps(others, steps, servers);
    var w := Exec(Init(others), steps);
    forall s, t, s', t' | Reported(w, s, t) && Reported(w, s', t')
      && k == ToolName(MCP, s, t) && k == ToolName(MCP, s', t') ensures s == s' && t == t'
    {
      ToolNamesInjective(MCP, s, s', t, t');
    }
  }

  // ---- no operation leaves its own server's prefix ----

  /** The server whose operation a step runs, if any. */
  function ServerOf(w: World, step: Step): Option<string> {
    match step
    case StartConnect(_, s) => Some(s)
    case StartDisconnect(_, s) => Some(s)
    case StartFailure(_, s) => Some(s)
    case Elsewhere(_) => None
    case _ => if step.id in w.ops then Some(w.ops[step.id].server) else None
  }

  /** In any state, with any names: entries outside the acting server's prefix are not added, removed or changed. */
  lemma StepStaysInPrefix(w: World, step: Step, k: string)
    requires ServerOf(w, step).Some? && !StartsWith(k, Prefix(MCP, ServerOf(w, step).value))
    ensures var v := Apply(w, step);
      && (k in v.m.tools <==> k in w.m.tools)
      && (k in w.m.tools ==> v.m.tools[k] == w.m.tools[k])
  {
    if step.ListReply? && w.ops[step.id].Listing? && step.found.Some? {
      var s, names := w.ops[step.id].server, step.found.value;
      WithAllIs(w.m.tools, Prefix(MCP, s), names, HandlerFor(w.ops[step.id].client));
      assert forall n | n in names :: k != Prefix(MCP, s) + n;
    }
  }

  // ---- the condition on names is exact ----

  /** Connect `t` and let it report `x`, then connect `s`. */
  function Collision(s: string, t: string, x: string): seq<Step> {
    [] + [StartConnect(0, t)] + [ConnectReply(0, true)] + [ListReply(0, Some([x]))]
    + [Continue(0)] + [StartConnect(1, s)] + [ConnectReply(1, true)]
  }

  lemma {:induction false} ExecConcat(w: World, x: seq<Step>, step: Step)
    ensures Exec(w, x + [step]) == Apply(Exec(w, x), step)
  {
    assert (x + [step])[..|x|] == x;
  }

  /** `t` has connected and reported `x`. */
  lemma FirstReports(t: string, x: string)
    ensures var w1 := Apply(Init(map[]), StartConnect(0, t));
      var w4 := Apply(Apply(Apply(w1, ConnectReply(0, true)), ListReply(0, Some([x]))), Continue(0));
      w4.ops == map[] && w4.nextClient == 1 && w4.listed.Keys == {t} && w4.listed[t] == SetOf([x])
  {
    var w1 := Apply(Init(map[]), StartConnect(0, t));
    assert w1.ops == map[0 := Connecting(t, 0)] && w1.nextClient == 1;
    var w2 := Apply(w1, ConnectReply(0, true));
    assert w2.ops == map[0 := Listing(t, 0)] && w2.listed == map[t := {}];
    var w3 := Apply(w2, ListReply(0, Some([x])));
    assert w3.ops == map[0 := Updating(t)];
  }

  /** Connecting `s` takes the tool away. */
  lemma SecondClears(w: World, s: string, t: string, x: string)
    requires s != t && StartsWith(ToolName(MCP, t, x), Prefix(MCP, s))
    requires w.ops == map[] && w.nextClient == 1 && t in w.listed && x in w.listed[t]
    ensures !Partition(Apply(Apply(w, StartConnect(1, s)), ConnectReply(1, true)))
  {
    var w5 := Apply(w, StartConnect(1, s));
    assert w5.ops == map[1 := Connecting(s, 1)];
    var w6 := Apply(w5, ConnectReply(1, true));
    assert Reported(w6, t, x) && ToolName(MCP, t, x) !in w6.m.tools;
  }

  lemma CollisionBreaks(s: string, t: string, x: string)
    requires s != t && StartsWith(ToolName(MCP, t, x), Prefix(MCP, s))
    ensures !Partition(Exec(Init(map[]), Collision(s, t, x)))
  {
    var w := Init(map[]);
    var first := [] + [StartConnect(0, t)] + [ConnectReply(0, true)] + [ListReply(0, Some([x]))];
    ThreeSteps(w, [], StartConnect(0, t), ConnectReply(0, true), ListReply(0, Some([x])));
    ThreeSteps(w, first, Continue(0), StartConnect(1, s), ConnectReply(1, true));
    FirstReports(t, x);
    assert x in [x];
    SecondClears(Exec(w, first + [Continue(0)]), s, t, x);
  }

  lemma ThreeSteps(w: World, before: seq<Step>, a: Step, b: Step, c: Step)
    ensures Exec(w, before + [a] + [b] + [c]) == Apply(Apply(Apply(Exec(w, before), a), b), c)
  {
    ExecConcat(w, before, a);
    ExecConcat(w, before + [a], b);
    ExecConcat(w, before + [a] + [b], c);
  }

  /** The registry stays the disjoint union of what the servers reported, on every run, iff names are prefix-free. */
  lemma PartitionExact(servers: set<string>)
    ensures PairwisePrefixFree(servers)
       <==> forall others, steps | StepsOver(steps, servers) :: Partition(Exec(Init(others), steps))
  {
    if PairwisePrefixFree(servers) {
      forall others, steps | StepsOver(steps, servers) ensures Partition(Exec(Init(others), steps)) {
        RunKeeps(others, steps, servers);
      }
    } else {
      var s, t :| s in servers && t in servers && s != t && !PrefixFree(s, t);
      PrefixFreeExact(MCP, s, t);
      if Reaches(MCP, s, t) {
        var x: string :| StartsWith(ToolName(MCP, t, x), Prefix(MCP, s));
        CollisionBreaks(s, t, x);
        assert StepsOver(Collision(s, t, x), servers);
      } else {
        var x: string :| StartsWith(ToolName(MCP, s, x), Prefix(MCP, t));
        CollisionBreaks(t, s, x);
        assert StepsOver(Collision(t, s, x), servers);
      }
    }
  }
}
