/**
 The MCP manager: stored clients and their tools in the shared registry. Each method below is one atomic segment of a
 coroutine, the code between two awaits; `McpRuns` lets segments of different coroutines interleave.
 */
module McpManager {
  import opened Common
  import opened Names
  import opened Registry

  const MCP := "mcp"

  /** What the segments read and write. */
  datatype Mgr = Mgr(clients: map<string, nat>, tools: Tools)

  function HandlerFor(client: nat): string -> Handler {
    (tool: string) => McpTool(client, tool)
  }

  /** `connect_server` once `client.connect()` has returned, up to the await of `list_tools`. */
  function Connected(m: Mgr, server: string, client: nat): Mgr {
    Mgr(m.clients[server := client], Without(m.tools, Prefix(MCP, server)))
  }

  /** `_sync_tools` on reconnect: the stored client stays. */
  function Cleared(m: Mgr, server: string): Mgr {
    m.(tools := Without(m.tools, Prefix(MCP, server)))
  }

  /** `_sync_tools` after the await: a failed discovery registers nothing. */
  function Listed(m: Mgr, server: string, client: nat, found: Option<seq<string>>): Mgr {
    match found
    case None => m
    case Some(names) => m.(tools := WithAll(m.tools, Prefix(MCP, server), names, HandlerFor(client)))
  }

  /** `disconnect_server` up to the await of `client.disconnect()`. */
  function Disconnected(m: Mgr, server: string): Mgr {
    if server !in m.clients then m
    else Mgr(m.clients - {server}, Without(m.tools, Prefix(MCP, server)))
  }

  // ---- reconnect backoff ----

  const MAX_BACKOFF := 60

  function Min(a: nat, b: nat): nat {
    if a <= b then a else b
  }

  function NextBackoff(backoff: nat): nat {
    Min(backoff * 2, MAX_BACKOFF)
  }

  /** The sleep before attempt `k`. */
  function Backoff(k: nat): nat {
    if k == 0 then 1 else NextBackoff(Backoff(k - 1))
  }

  /** One turn of the reconnect loop: the client may be missing, the attempt may fail, or it works. */
  datatype Attempt = Missing | Fails | Works

  function FailuresIn(outcomes: seq<Attempt>): nat {
    if outcomes == [] then 0
    else FailuresIn(outcomes[..|outcomes| - 1]) + if outcomes[|outcomes| - 1] == Fails then 1 else 0
  }

  function Pow2(k: nat): nat {
    if k == 0 then 1 else 2 * Pow2(k - 1)
  }

  function TotalWait(n: nat): nat {
    if n == 0 then 0 else TotalWait(n - 1) + Backoff(n - 1)
  }

  lemma {:induction false} BackoffClosedForm(k: nat)
    ensures Backoff(k) == Min(Pow2(k), MAX_BACKOFF)
  {
    if k == 0 {
    } else {
      BackoffClosedForm(k - 1);
    }
  }

  lemma {:induction false} TotalWaitClosedForm(n: nat)
    ensures n <= 6 ==> TotalWait(n) == Pow2(n) - 1
    ensures n >= 6 ==> TotalWait(n) == 63 + 60 * (n - 6)
  {
    if n == 0 {
    } else {
      TotalWaitClosedForm(n - 1);
      BackoffClosedForm(n - 1);
      Pow2Small(n);
    }
  }

  lemma Pow2Small(n: nat)
    requires n > 0
    ensures n <= 6 ==> Pow2(n - 1) <= 32
    ensures n > 6 ==> Pow2(n - 1) >= 64
    ensures Pow2(6) == 64
  {
    assert Pow2(1) == 2 && Pow2(2) == 4 && Pow2(3) == 8;
    assert Pow2(4) == 16 && Pow2(5) == 32;
    assert Pow2(6) == 64;
    if n > 7 { Pow2Small(n - 1); }
  }

  class MCPManager {
    const registry: ToolRegistry
    var clients: map<string, nat>

    ghost function Abstract(): Mgr
      reads this, registry
    {
      Mgr(clients, registry.tools)
    }

    constructor (registry: ToolRegistry)
      ensures this.registry == registry && clients == map[]
    {
      this.registry := registry;
      clients := map[];
    }

    method OnConnected(server: string, client: nat)
      modifies this, registry
      ensures Abstract() == Connected(old(Abstract()), server, client)
    {
      clients := clients[server := client];
      OnSync(server);
    }

    method OnSync(server: string)
      modifies registry
      ensures Abstract() == Cleared(old(Abstract()), server)
    {
      var _ := registry.Unregister(Prefix(MCP, server));
    }

    method OnListed(server: string, client: nat, found: Option<seq<string>>)
      modifies registry
      ensures Abstract() == Listed(old(Abstract()), server, client, found)
    {
      if found.None? {
        return;
      }
      var names := found.value;
      for i := 0 to |names|
        invariant registry.tools == WithAll(old(registry.tools), Prefix(MCP, server), names[..i], HandlerFor(client))
      {
        assert names[..i + 1][..i] == names[..i];
        var _ := registry.Register(Some(ToolName(MCP, server, names[i])), true, Some(McpTool(client, names[i])));
      }
      assert names[..|names|] == names;
    }

    method OnDisconnect(server: string) returns (client: Option<nat>)
      modifies this, registry
      ensures Abstract() == Disconnected(old(Abstract()), server)
      ensures client == if server in old(clients) then Some(old(clients)[server]) else None
    {
      if server !in clients {
        return None;
      }
      client := Some(clients[server]);
      clients := clients - {server};
      var _ := registry.Unregister(Prefix(MCP, server));
    }

    /**
     The reconnect loop, an attempt at a time. Its sleeps follow the backoff sequence, advanced by failures only: while
     the client is missing the same time is slept again. It stops at the first success.
     */
    method ReconnectSleeps(outcomes: seq<Attempt>) returns (sleeps: seq<nat>)
      ensures |sleeps| <= |outcomes|
      ensures forall k | 0 <= k < |sleeps| :: sleeps[k] == Backoff(FailuresIn(outcomes[..k]))
      ensures forall k | 0 <= k < |sleeps| - 1 :: outcomes[k] != Works
      ensures |sleeps| < |outcomes| ==> sleeps != [] && outcomes[|sleeps| - 1] == Works
    {
      sleeps := [];
      var backoff := 1;
      for n := 0 to |outcomes|
        invariant |sleeps| == n && backoff == Backoff(FailuresIn(outcomes[..n]))
        invariant forall k | 0 <= k < n :: sleeps[k] == Backoff(FailuresIn(outcomes[..k]))
        invariant forall k | 0 <= k < n :: outcomes[k] != Works
      {
        sleeps := sleeps + [backoff];
        if outcomes[n] == Works {
          return;
        }
        assert outcomes[..n + 1][..n] == outcomes[..n];
        if outcomes[n] == Fails {
          backoff := NextBackoff(backoff);
        }
      }
    }
  }
}
