/** The shared tool registry: one flat map from tool names to entries, last write wins. */
module Registry {
  import opened Common
  import opened Names

  /** What a call of the tool is routed to. */
  datatype Handler = Builtin(id: nat) | McpTool(client: nat, tool: string) | SkillTool(url: string, tool: string)

  /** `register` with all arguments stores; without a handler it hands back a decorator; otherwise it raises. */
  datatype Registered = Stored | Decorator(name: string) | ValueError

  type Tools = map<string, Handler>

  function Without(tools: Tools, prefix: string): Tools {
    map k | k in tools && !StartsWith(k, prefix) :: tools[k]
  }

  /** The entries after registering `names` under `prefix`, each with its own handler. */
  function WithAll(tools: Tools, prefix: string, names: seq<string>, handler: string -> Handler): Tools {
    if names == [] then tools
    else
      var n := names[|names| - 1];
      WithAll(tools, prefix, names[..|names| - 1], handler)[prefix + n := handler(n)]
  }

  lemma {:induction false} WithAllIs(tools: Tools, prefix: string, names: seq<string>, handler: string -> Handler)
    ensures var r := WithAll(tools, prefix, names, handler);
      && (forall n | n in names :: prefix + n in r && r[prefix + n] == handler(n))
      && (forall k | k in r :: (exists n :: n in names && k == prefix + n) || (k in tools && r[k] == tools[k]))
      && (forall k | k in tools :: k in r)
  {
    if names == [] {
    } else {
      var i := |names| - 1;
      WithAllIs(tools, prefix, names[..i], handler);
      var q, r := WithAll(tools, prefix, names[..i], handler), WithAll(tools, prefix, names, handler);
      forall n | n in names ensures prefix + n in r && r[prefix + n] == handler(n) {
        if n in names[..i] {
          assert prefix + n in q;
          assert prefix + n == prefix + names[i] ==> (prefix + n)[|prefix|..] == (prefix + names[i])[|prefix|..];
        } else {
          assert names == names[..i] + [names[i]];
        }
      }
      forall k | k in r ensures (exists n :: n in names && k == prefix + n) || (k in tools && r[k] == tools[k]) {
        if k == prefix + names[i] {
          assert names[i] in names;
        } else if n :| n in names[..i] && k == prefix + n {
          assert n in names;
        }
      }
    }
  }

  class ToolRegistry {
    var tools: Tools

    constructor ()
      ensures tools == map[]
    {
      tools := map[];
    }

    method Register(name: Option<string>, hasSchema: bool, handler: Option<Handler>) returns (r: Registered)
      modifies this
      ensures name.Some? && hasSchema && handler.Some? ==>
                r == Stored && tools == old(tools)[name.value := handler.value]
      ensures name.Some? && hasSchema && handler.None? ==> r == Decorator(name.value) && tools == old(tools)
      ensures name.None? || !hasSchema ==> r == ValueError && tools == old(tools)
    {
      if name.Some? && hasSchema && handler.Some? {
        tools := tools[name.value := handler.value];
        return Stored;
      }
      if name.Some? && hasSchema {
        return Decorator(name.value);
      }
      return ValueError;
    }

    method ListTools() returns (names: seq<string>)
      ensures forall n :: n in names <==> n in tools
      ensures forall i, j | 0 <= i < j < |names| :: names[i] != names[j]
    {
      names := [];
      var rest := tools.Keys;
      while rest != {}
        invariant rest <= tools.Keys
        invariant forall n :: n in names <==> n in tools.Keys - rest
        invariant forall i, j | 0 <= i < j < |names| :: names[i] != names[j]
        decreases |rest|
      {
        var n :| n in rest;
        assert n !in names;
        assert forall j | 0 <= j < |names| :: names[j] in names;
        names := names + [n];
        rest := rest - {n};
      }
    }

    /** The names that start with the prefix. */
    method Matching(prefix: string) returns (names: seq<string>)
      ensures forall n :: n in names <==> n in tools && StartsWith(n, prefix)
      ensures forall i, j | 0 <= i < j < |names| :: names[i] != names[j]
    {
      var all := ListTools();
      names := [];
      for i := 0 to |all|
        invariant forall n :: n in names <==> n in all[..i] && StartsWith(n, prefix)
        invariant forall j, k | 0 <= j < k < |names| :: names[j] != names[k]
      {
        assert all[..i + 1] == all[..i] + [all[i]];
        assert all[i] !in all[..i];
        if StartsWith(all[i], prefix) {
          assert forall j | 0 <= j < |names| :: names[j] in names;
          names := names + [all[i]];
        }
      }
      assert all[..|all|] == all;
    }

    method Unregister(prefix: string) returns (count: nat)
      modifies this
      ensures tools == Without(old(tools), prefix)
      ensures count == |old(tools)| - |tools|
    {
      var names := Matching(prefix);
      for i := 0 to |names|
        invariant forall k :: k in tools <==> k in old(tools) && k !in names[..i]
        invariant forall k | k in tools :: tools[k] == old(tools)[k]
        invariant |tools| == |old(tools)| - i
      {
        assert names[..i + 1] == names[..i] + [names[i]];
        tools := tools - {names[i]};
      }
      assert names[..|names|] == names;
      count := |names|;
    }
  }
}
