/**
 The skill manager: containers, caches and the tools of enabled skills, found again only through the names in the shared
 registry. No condition on skill or tool names is assumed.
 */
module Skills {
  import opened Common
  import opened Names
  import opened Registry

  const SKILL := "skill"
  const NAMESPACE := SKILL + SEP

  datatype Kind = Service | ScriptKind | Knowledge

  /** A declared tool; it has no schema when its `parameters` key is present but null. */
  datatype Tool = Tool(name: string, hasSchema: bool)

  /** `tools` is none when the manifest has the key without a value; a manifest without the key has no tools. */
  datatype Skill = Skill(name: string, kind: Kind, description: string, tools: Option<seq<Tool>>)

  /** What the outside world does during `_enable_one`. */
  datatype Outcome =
    | DownloadFails
    | ManifestFails
    | ContainerFails(body: Option<string>)
    | Succeeds(body: Option<string>, url: string)

  datatype Mgr = Mgr(tools: Tools, containers: map<string, string>, content: map<string, string>,
                     descriptions: map<string, string>)

  function HandlerFor(url: string): string -> Handler {
    (tool: string) => SkillTool(url, tool)
  }

  /** The caches are filled before the container is started. */
  function Cached(m: Mgr, skill: Skill, body: Option<string>): Mgr {
    m.(content := if body.Some? then m.content[skill.name := body.value] else m.content,
       descriptions := if skill.description != "" then m.descriptions[skill.name := skill.description]
                       else m.descriptions)
  }

  /** The index of the first tool without a schema, or the length of the list. */
  function FirstNull(tools: seq<Tool>): (n: nat)
    ensures n <= |tools| && (n < |tools| ==> !tools[n].hasSchema)
    ensures forall j: nat | j < n :: tools[j].hasSchema
  {
    if tools == [] || !tools[0].hasSchema then 0 else 1 + FirstNull(tools[1..])
  }

  function Named(tools: seq<Tool>): seq<string> {
    seq(|tools|, i requires 0 <= i < |tools| => tools[i].name)
  }

  lemma NextRegistered(clean: Tools, prefix: string, tools: seq<Tool>, i: nat, handler: string -> Handler)
    requires i < |tools|
    ensures var t := tools[i].name;
      WithAll(clean, prefix, Named(tools[..i + 1]), handler)
      == WithAll(clean, prefix, Named(tools[..i]), handler)[prefix + t := handler(t)]
  {
    var names := Named(tools[..i + 1]);
    assert names[..i] == Named(tools[..i]);
  }

  /** The tools that get registered: those of a service, up to the first the registry refuses. */
  function ToRegister(skill: Skill): seq<string> {
    if skill.kind == Service && skill.tools.Some? then Named(skill.tools.value[..FirstNull(skill.tools.value)]) else []
  }

  /** Does registering the declared tools raise? */
  predicate Refused(skill: Skill) {
    skill.tools.None? || (skill.kind == Service && FirstNull(skill.tools.value) < |skill.tools.value|)
  }

  predicate Raises(skill: Skill, outcome: Outcome) {
    outcome.DownloadFails? || outcome.ManifestFails? || (outcome.ContainerFails? && skill.kind == Service)
    || Refused(skill)
  }

  /** `_enable_one`, however far it gets. */
  function Enabled(m: Mgr, skill: Skill, outcome: Outcome): Mgr {
    match outcome
    case DownloadFails => m
    case ManifestFails => m
    case ContainerFails(body) =>
      if skill.kind == Service then Cached(m, skill, body) else Registered(Cached(m, skill, body), skill, "")
    case Succeeds(body, url) => Registered(Cached(m, skill, body), skill, url)
  }

  function Registered(m: Mgr, skill: Skill, url: string): Mgr {
    var p := Prefix(SKILL, skill.name);
    m.(tools := WithAll(Without(m.tools, p), p, ToRegister(skill), HandlerFor(url)),
       containers := if skill.kind == Service then m.containers[skill.name := url] else m.containers)
  }

  /** `disable_skill` up to the stop of the container: tools and container are forgotten, the caches still filled. */
  function Cut(m: Mgr, name: string): Mgr {
    m.(tools := Without(m.tools, Prefix(SKILL, name)), containers := m.containers - {name})
  }

  /** The stop is only attempted for a stored container; every error but a missing container escapes. */
  predicate StopRaises(m: Mgr, name: string, stopFails: bool) {
    stopFails && name in m.containers
  }

  /** `disable_skill`, however far it gets. */
  function Disabled(m: Mgr, name: string, stopFails: bool): Mgr {
    var cut := Cut(m, name);
    if StopRaises(m, name, stopFails) then cut
    else cut.(content := m.content - {name}, descriptions := m.descriptions - {name})
  }

  /** `name.split("__")[1]` for a name in the skill namespace: up to the second separator, or all the rest. */
  function SkillPart(name: string): string
    requires StartsWith(name, NAMESPACE)
  {
    var rest := name[|NAMESPACE|..];
    rest[..FirstSep(rest)]
  }

  function FirstSep(s: string): (n: nat)
    ensures n <= |s|
    ensures n < |s| ==> SepAt(s, n)
    ensures forall i: nat | i < n :: !SepAt(s, i)
  {
    if s == "" then 0
    else if SepAt(s, 0) then 0
    else
      var n := FirstSep(s[1..]);
      assert forall i: nat | 0 < i < |s| :: SepAt(s, i) == SepAt(s[1..], i - 1);
      n + 1
  }

  /** A skill-tool name has a second separator. */
  predicate TwoSeps(name: string)
    requires StartsWith(name, NAMESPACE)
  {
    FirstSep(name[|NAMESPACE|..]) < |name| - |NAMESPACE|
  }

  predicate IsSkillTool(name: string) {
    StartsWith(name, NAMESPACE) && TwoSeps(name)
  }

  /** The names `disable_all` looks at find their own tools. */
  lemma PartFindsTool(name: string)
    requires IsSkillTool(name)
    ensures StartsWith(name, Prefix(SKILL, SkillPart(name)))
  {
    var rest := name[|NAMESPACE|..];
    var n := FirstSep(rest);
    var p := Prefix(SKILL, SkillPart(name));
    assert name == NAMESPACE + rest;
    assert rest[n..n + 2] == SEP;
    assert rest[..n + 2] == rest[..n] + SEP;
    assert p == NAMESPACE + rest[..n + 2];
    assert name[..|p|] == NAMESPACE + rest[..n + 2];
  }

  /** Whatever the skill and tool are called, a registered skill tool has a second separator. */
  lemma ToolHasTwoSeps(skill: string, tool: string)
    ensures IsSkillTool(ToolName(SKILL, skill, tool))
  {
    var name := ToolName(SKILL, skill, tool);
    var rest := skill + SEP + tool;
    assert name == NAMESPACE + rest;
    assert name[..|NAMESPACE|] == NAMESPACE && name[|NAMESPACE|..] == rest;
    assert SepAt(rest, |skill|);
  }

  lemma PrefixedIsSkillTool(name: string, skill: string)
    requires StartsWith(name, Prefix(SKILL, skill))
    ensures IsSkillTool(name)
  {
    var p := Prefix(SKILL, skill);
    assert name == ToolName(SKILL, skill, name[|p|..]);
    ToolHasTwoSeps(skill, name[|p|..]);
  }

  /** The names to disable, each once: stored containers and the skill part of every name in the namespace. */
  ghost predicate Targets(m: Mgr, names: seq<string>) {
    && (forall n :: n in names <==>
          n in m.containers || exists k :: k in m.tools && StartsWith(k, NAMESPACE) && n == SkillPart(k))
    && (forall i, j | 0 <= i < j < |names| :: names[i] != names[j])
  }

  /** Stored containers come first. */
  ghost predicate ContainersFirst(m: Mgr, names: seq<string>) {
    forall i, j | 0 <= i < j < |names| && names[j] in m.containers :: names[i] in m.containers
  }

  /** The index of the first target whose stop raises, or the length of the list. */
  function FirstRaise(m: Mgr, names: seq<string>, failing: set<string>): (k: nat)
    ensures k <= |names| && (k < |names| ==> StopRaises(m, names[k], names[k] in failing))
    ensures forall j: nat | j < k :: !StopRaises(m, names[j], names[j] in failing)
  {
    if names == [] || StopRaises(m, names[0], names[0] in failing) then 0
    else 1 + FirstRaise(m, names[1..], failing)
  }

  ghost predicate Covered(names: seq<string>, k: string) {
    exists n :: n in names && StartsWith(k, Prefix(SKILL, n))
  }

  function SetOf(names: seq<string>): set<string> {
    set n | n in names
  }

  /** The targets that `disable_all` reaches: up to and including the one that raises. */
  function Reached(m: Mgr, names: seq<string>, failing: set<string>): seq<string> {
    var k := FirstRaise(m, names, failing);
    if k < |names| then names[..k + 1] else names
  }

  /** Tools and containers of the targets reached are gone, and the caches of those whose stop did not raise. */
  ghost predicate Stopped(m: Mgr, names: seq<string>, failing: set<string>, r: Mgr) {
    var reached, done := Reached(m, names, failing), names[..FirstRaise(m, names, failing)];
    && (forall k :: k in r.tools <==> k in m.tools && !Covered(reached, k))
    && (forall k | k in r.tools :: r.tools[k] == m.tools[k])
    && r.containers == m.containers - SetOf(reached)
    && r.content == m.content - SetOf(done)
    && r.descriptions == m.descriptions - SetOf(done)
  }

  class SkillManager {
    const registry: ToolRegistry
    var containers: map<string, string>
    var skillContent: map<string, string>
    var skillDescriptions: map<string, string>

    ghost function Abstract(): Mgr
      reads this, registry
    {
      Mgr(registry.tools, containers, skillContent, skillDescriptions)
    }

    constructor (registry: ToolRegistry)
      ensures this.registry == registry
      ensures containers == map[] && skillContent == map[] && skillDescriptions == map[]
    {
      this.registry := registry;
      containers, skillContent, skillDescriptions := map[], map[], map[];
    }

    method EnableOne(skill: Skill, outcome: Outcome) returns (raised: bool)
      modifies this, registry
      ensures Abstract() == Enabled(old(Abstract()), skill, outcome)
      ensures raised == Raises(skill, outcome)
    {
      if outcome.DownloadFails? || outcome.ManifestFails? {
        return true;
      }
      if outcome.body.Some? {
        skillContent := skillContent[skill.name := outcome.body.value];
      }
      if skill.description != "" {
        skillDescriptions := skillDescriptions[skill.name := skill.description];
      }
      if skill.kind == Service {
        if outcome.ContainerFails? {
          return true;
        }
        containers := containers[skill.name := outcome.url];
      }
      raised := RegisterTools(skill, if outcome.Succeeds? then outcome.url else "");
    }

    /** One tool: only a service registers it, and the registry refuses it without a schema. */
    method RegisterTool(skill: Skill, t: Tool, url: string) returns (refused: bool)
      modifies registry
      ensures refused == (skill.kind == Service && !t.hasSchema)
      ensures registry.tools == if skill.kind == Service && t.hasSchema
                                then old(registry.tools)[ToolName(SKILL, skill.name, t.name) := SkillTool(url, t.name)]
                                else old(registry.tools)
    {
      if skill.kind != Service {
        return false;
      }
      var name, handler := ToolName(SKILL, skill.name, t.name), SkillTool(url, t.name);
      var r := registry.Register(Some(name), t.hasSchema, Some(handler));
      return r == ValueError;
    }

    /** One registration per tool until one is refused. */
    method RegisterEach(skill: Skill, tools: seq<Tool>, url: string) returns (raised: bool)
      requires skill.tools == Some(tools)
      modifies registry
      ensures registry.tools
           == WithAll(old(registry.tools), Prefix(SKILL, skill.name), ToRegister(skill), HandlerFor(url))
      ensures raised == Refused(skill)
    {
      ghost var prefix, clean := Prefix(SKILL, skill.name), registry.tools;
      for i := 0 to |tools|
        modifies registry
        invariant skill.kind == Service ==> i <= FirstNull(tools)
        invariant registry.tools ==
          WithAll(clean, prefix, if skill.kind == Service then Named(tools[..i]) else [], HandlerFor(url))
      {
        NextRegistered(clean, prefix, tools, i, HandlerFor(url));
        var refused := RegisterTool(skill, tools[i], url);
        if refused {
          assert FirstNull(tools) == i;
          return true;
        }
      }
      assert tools[..|tools|] == tools;
      return false;
    }

    /** The last part of `_enable_one`: a clean slate, then the tools. */
    method RegisterTools(skill: Skill, url: string) returns (raised: bool)
      modifies registry
      ensures registry.tools == WithAll(Without(old(registry.tools), Prefix(SKILL, skill.name)),
                                        Prefix(SKILL, skill.name), ToRegister(skill), HandlerFor(url))
      ensures raised == Refused(skill)
    {
      var _ := registry.Unregister(Prefix(SKILL, skill.name));
      if skill.tools.None? {
        return true;
      }
      raised := RegisterEach(skill, skill.tools.value, url);
    }

    method DisableSkill(name: string, stopFails: bool) returns (raised: bool)
      modifies this, registry
      ensures Abstract() == Disabled(old(Abstract()), name, stopFails)
      ensures raised == StopRaises(old(Abstract()), name, stopFails)
    {
      var _ := registry.Unregister(Prefix(SKILL, name));
      if name in containers {
        containers := containers - {name};
        if stopFails {
          return true;
        }
      }
      skillContent := skillContent - {name};
      skillDescriptions := skillDescriptions - {name};
      return false;
    }

    method CollectTargets() returns (names: seq<string>)
      ensures Targets(Abstract(), names) && ContainersFirst(Abstract(), names)
    {
      names := [];
      var rest := containers.Keys;
      while rest != {}
        invariant rest <= containers.Keys
        invariant forall n :: n in names <==> n in containers.Keys - rest
        invariant forall i, j | 0 <= i < j < |names| :: names[i] != names[j]
        decreases |rest|
      {
        var n :| n in rest;
        assert n !in names;
        names := names + [n];
        rest := rest - {n};
      }
      assert forall j | 0 <= j < |names| :: names[j] in names;
      var tools := registry.ListTools();
      for i := 0 to |tools|
        invariant ContainersFirst(Abstract(), names)
        invariant forall n :: n in names <==>
          n in containers || exists k :: k in tools[..i] && StartsWith(k, NAMESPACE) && n == SkillPart(k)
        invariant forall i, j | 0 <= i < j < |names| :: names[i] != names[j]
      {
        assert tools[..i + 1] == tools[..i] + [tools[i]];
        if StartsWith(tools[i], NAMESPACE) && SkillPart(tools[i]) !in names {
          names := names + [SkillPart(tools[i])];
        }
      }
      assert tools[..|tools|] == tools;
    }

    /** `failing` are the skills whose container cannot be stopped; the first of them ends the loop. */
    method DisableAll(failing: set<string>) returns (raised: bool, ghost names: seq<string>)
      modifies this, registry
      ensures Targets(old(Abstract()), names) && ContainersFirst(old(Abstract()), names)
      ensures Stopped(old(Abstract()), names, failing, Abstract())
      ensures raised == (FirstRaise(old(Abstract()), names, failing) < |names|)
    {
      var targets := CollectTargets();
      names := targets;
      ghost var was := Abstract();
      for i := 0 to |targets|
        invariant i <= FirstRaise(was, targets, failing) && Abstract() == DisabledAll(was, targets[..i])
      {
        NextDisabled(was, targets, failing, i);
        raised := DisableSkill(targets[i], targets[i] in failing);
        if raised {
          StoppedAt(was, targets, failing, i);
          return;
        }
      }
      StoppedNowhere(was, targets, failing);
      return false, names;
    }

    /** One summary per distinct skill part, with the stored description or none. */
    method EnabledSummaries() returns (unique: seq<(string, string)>)
      ensures forall n, d :: (n, d) in unique <==>
        (exists k :: k in registry.tools && IsSkillTool(k) && n == SkillPart(k))
        && d == (if n in skillDescriptions then skillDescriptions[n] else "")
      ensures forall i, j | 0 <= i < j < |unique| :: unique[i].0 != unique[j].0
    {
      unique := [];
      var seen: set<string> := {};
      var tools := registry.ListTools();
      for i := 0 to |tools|
        invariant forall n :: n in seen <==> exists k :: k in tools[..i] && IsSkillTool(k) && n == SkillPart(k)
        invariant forall n, d :: (n, d) in unique <==>
          n in seen && d == (if n in skillDescriptions then skillDescriptions[n] else "")
        invariant forall i, j | 0 <= i < j < |unique| :: unique[i].0 != unique[j].0
      {
        assert tools[..i + 1] == tools[..i] + [tools[i]];
        if IsSkillTool(tools[i]) {
          var n := SkillPart(tools[i]);
          if n !in seen {
            seen := seen + {n};
            unique := unique + [(n, if n in skillDescriptions then skillDescriptions[n] else "")];
          }
        }
      }
      assert tools[..|tools|] == tools;
    }
  }

  // ---- disabling a list of skills ----

  function DisabledAll(m: Mgr, names: seq<string>): Mgr {
    if names == [] then m else Disabled(DisabledAll(m, names[..|names| - 1]), names[|names| - 1], false)
  }

  lemma CoveredSnoc(names: seq<string>, n: string, k: string)
    ensures Covered(names + [n], k) <==> Covered(names, k) || StartsWith(k, Prefix(SKILL, n))
  {
    assert forall x :: x in names + [n] <==> x in names || x == n;
    assert StartsWith(k, Prefix(SKILL, n)) ==> n in names + [n];
  }

  lemma {:induction false} DisabledTools(m: Mgr, names: seq<string>)
    ensures var r := DisabledAll(m, names);
      && (forall k :: k in r.tools <==> k in m.tools && !Covered(names, k))
      && (forall k | k in r.tools :: r.tools[k] == m.tools[k])
  {
    if names == [] {
    } else {
      var i := |names| - 1;
      assert names == names[..i] + [names[i]];
      DisabledTools(m, names[..i]);
      forall k ensures Covered(names, k) <==> Covered(names[..i], k) || StartsWith(k, Prefix(SKILL, names[i])) {
        CoveredSnoc(names[..i], names[i], k);
      }
    }
  }

  lemma {:induction false} DisabledRest(m: Mgr, names: seq<string>)
    ensures var r, gone := DisabledAll(m, names), SetOf(names);
      && r.containers == m.containers - gone
      && r.content == m.content - gone
      && r.descriptions == m.descriptions - gone
  {
    if names == [] {
    } else {
      var i := |names| - 1;
      assert names == names[..i] + [names[i]];
      DisabledRest(m, names[..i]);
    }
  }

  /** A target's container is still stored when the loop reaches it: the stop raises there or not at all. */
  lemma NextDisabled(m: Mgr, names: seq<string>, failing: set<string>, i: nat)
    requires Targets(m, names) && i < |names| && i <= FirstRaise(m, names, failing)
    ensures var now := DisabledAll(m, names[..i]);
      && (StopRaises(now, names[i], names[i] in failing) <==> i == FirstRaise(m, names, failing))
      && DisabledAll(m, names[..i + 1]) == Disabled(now, names[i], false)
  {
    DisabledRest(m, names[..i]);
    assert names[..i + 1][..i] == names[..i];
  }

  lemma CutTools(m: Mgr, done: seq<string>, n: string)
    ensures var r := Cut(DisabledAll(m, done), n);
      && (forall k :: k in r.tools <==> k in m.tools && !Covered(done + [n], k))
      && (forall k | k in r.tools :: r.tools[k] == m.tools[k])
  {
    DisabledTools(m, done);
    forall k ensures Covered(done + [n], k) <==> Covered(done, k) || StartsWith(k, Prefix(SKILL, n)) {
      CoveredSnoc(done, n, k);
    }
  }

  lemma StoppedAt(m: Mgr, names: seq<string>, failing: set<string>, i: nat)
    requires i < |names| && i == FirstRaise(m, names, failing)
    ensures Stopped(m, names, failing, Cut(DisabledAll(m, names[..i]), names[i]))
  {
    assert Reached(m, names, failing) == names[..i] + [names[i]];
    CutTools(m, names[..i], names[i]);
    DisabledRest(m, names[..i]);
    assert SetOf(names[..i] + [names[i]]) == SetOf(names[..i]) + {names[i]};
  }

  lemma StoppedNowhere(m: Mgr, names: seq<string>, failing: set<string>)
    requires FirstRaise(m, names, failing) == |names|
    ensures Stopped(m, names, failing, DisabledAll(m, names[..|names|]))
  {
    assert names[..|names|] == names;
    DisabledTools(m, names);
    DisabledRest(m, names);
  }

  /** All targets together cover exactly the names of the shape of a skill tool. */
  lemma TargetsCover(m: Mgr, names: seq<string>, k: string)
    requires Targets(m, names) && k in m.tools
    ensures Covered(names, k) <==> IsSkillTool(k)
  {
    if IsSkillTool(k) {
      PartFindsTool(k);
      assert SkillPart(k) in names;
    }
    if Covered(names, k) {
      var n :| n in names && StartsWith(k, Prefix(SKILL, n));
      PrefixedIsSkillTool(k, n);
    }
  }

  // ---- every run of enable and disable ----

  datatype Step =
    | Enable(skill: Skill, outcome: Outcome)
    | Disable(name: string, stopFails: bool)
    | Elsewhere(others: Tools)

  /** Other code changes only entries outside the skill namespace. */
  function Apply(m: Mgr, step: Step): Mgr {
    match step
    case Enable(skill, outcome) => Enabled(m, skill, outcome)
    case Disable(name, stopFails) => Disabled(m, name, stopFails)
    case Elsewhere(others) => m.(tools := OutsideFrom(m.tools, others))
  }

  function OutsideFrom(tools: Tools, others: Tools): Tools {
    map k | k in tools.Keys + others.Keys && (if StartsWith(k, NAMESPACE) then k in tools else k in others) ::
      if StartsWith(k, NAMESPACE) then tools[k] else others[k]
  }

  function Exec(m: Mgr, steps: seq<Step>): Mgr {
    if steps == [] then m else Apply(Exec(m, steps[..|steps| - 1]), steps[|steps| - 1])
  }

  function Init(others: Tools): Mgr {
    Mgr(OutsideFrom(map[], others), map[], map[], map[])
  }

  /** Every name in the namespace has the shape of a skill tool. */
  ghost predicate Shaped(tools: Tools) {
    forall k | k in tools && StartsWith(k, NAMESPACE) :: TwoSeps(k)
  }

  lemma RegisteredShaped(m: Mgr, skill: Skill, url: string)
    requires Shaped(m.tools)
    ensures Shaped(Registered(m, skill, url).tools)
  {
    var p := Prefix(SKILL, skill.name);
    WithAllIs(Without(m.tools, p), p, ToRegister(skill), HandlerFor(url));
    forall n | n in ToRegister(skill) ensures IsSkillTool(p + n) { ToolHasTwoSeps(skill.name, n); }
  }

  lemma {:induction false} RunShaped(others: Tools, steps: seq<Step>)
    ensures Shaped(Exec(Init(others), steps).tools)
  {
    if steps == [] {
    } else {
      var i := |steps| - 1;
      RunShaped(others, steps[..i]);
      var m := Exec(Init(others), steps[..i]);
      if steps[i].Enable? {
        var o := steps[i].outcome;
        if o.ContainerFails? || o.Succeeds? {
          RegisteredShaped(Cached(m, steps[i].skill, o.body), steps[i].skill, if o.Succeeds? then o.url else "");
        }
      }
    }
  }

  /** No container and no entry of the skill namespace is left. */
  ghost predicate Cleared(r: Mgr) {
    r.containers == map[] && forall k | k in r.tools :: !StartsWith(k, NAMESPACE)
  }

  /** No stop raises, or nothing is left for the targets after the one that raises. */
  ghost predicate NothingMissed(m: Mgr, names: seq<string>, failing: set<string>) {
    var reached := Reached(m, names, failing);
    forall n | n in names && n !in reached ::
      && n !in m.containers
      && forall k | k in m.tools && IsSkillTool(k) && SkillPart(k) == n :: Covered(reached, k)
  }

  /**
   In any state at all, whatever stops raise: `disable_all` empties the namespace exactly when every name in it has two
   separators and nothing was left after the stop that raised.
   */
  lemma DisableAllExact(m: Mgr, names: seq<string>, failing: set<string>, r: Mgr)
    requires Targets(m, names) && Stopped(m, names, failing, r)
    ensures Cleared(r) <==> Shaped(m.tools) && NothingMissed(m, names, failing)
  {
    var reached := Reached(m, names, failing);
    forall n | n in reached ensures n in names {}
    if Cleared(r) {
      forall k | k in m.tools && StartsWith(k, NAMESPACE) ensures IsSkillTool(k) && Covered(reached, k) {
        assert k !in r.tools;
        TargetsCover(m, names, k);
      }
      forall n | n in names && n !in reached ensures n !in m.containers {
        assert n !in r.containers;
      }
    }
    if Shaped(m.tools) && NothingMissed(m, names, failing) {
      forall k | k in m.tools && StartsWith(k, NAMESPACE) ensures Covered(reached, k) {
        PartFindsTool(k);
        assert SkillPart(k) in names;
      }
      forall n | n in m.containers ensures n in reached { assert n in names; }
    }
  }

  /**
   After every run of enable and disable, also failed ones, for all names: `disable_all` leaves no container and no
   entry of the skill namespace if no stop raises, and otherwise exactly if nothing was left after the stop that raised.
   Every other entry is untouched in any case.
   */
  lemma DisableAllIsComplete(others: Tools, steps: seq<Step>, names: seq<string>, failing: set<string>, r: Mgr)
    requires var m := Exec(Init(others), steps); Targets(m, names) && Stopped(m, names, failing, r)
    ensures var m := Exec(Init(others), steps);
      && (Cleared(r) <==> NothingMissed(m, names, failing))
      && (FirstRaise(m, names, failing) == |names| ==> Cleared(r))
      && forall k | !StartsWith(k, NAMESPACE) ::
           (k in r.tools <==> k in m.tools) && (k in m.tools ==> r.tools[k] == m.tools[k])
  {
    var m := Exec(Init(others), steps);
    RunShaped(others, steps);
    DisableAllExact(m, names, failing, r);
    forall k, n | StartsWith(k, Prefix(SKILL, n)) ensures StartsWith(k, NAMESPACE) { PrefixedIsSkillTool(k, n); }
  }

  /** A service with one tool. */
  function Simple(name: string, tool: string): Skill {
    Skill(name, Service, "", Some([Tool(tool, true)]))
  }

  function TwoServices(s: string, t: string, tool: string): seq<Step> {
    [Enable(Simple(s, tool), Succeeds(None, "s"))] + [Enable(Simple(t, tool), Succeeds(None, "t"))]
  }

  lemma OneEnabled(m: Mgr, name: string, tool: string, url: string)
    requires Without(m.tools, Prefix(SKILL, name)) == m.tools
    ensures var r := Enabled(m, Simple(name, tool), Succeeds(None, url));
      && r.containers == m.containers[name := url]
      && r.tools == m.tools[ToolName(SKILL, name, tool) := SkillTool(url, tool)]
  {
    assert ToRegister(Simple(name, tool)) == [tool] by { assert Named([Tool(tool, true)]) == [tool]; }
    var p, handler := Prefix(SKILL, name), HandlerFor(url);
    assert [tool][..|[tool]| - 1] == [] && WithAll(m.tools, p, [], handler) == m.tools;
    assert WithAll(m.tools, p, [tool], handler) == m.tools[p + tool := handler(tool)];
  }

  lemma ExecSnoc(m: Mgr, steps: seq<Step>, step: Step)
    ensures Exec(m, steps + [step]) == Apply(Exec(m, steps), step)
  {
    assert (steps + [step])[..|steps|] == steps;
  }

  lemma BothEnabled(s: string, t: string, tool: string)
    requires PrefixFree(s, t)
    ensures var m := Exec(Init(map[]), TwoServices(s, t, tool));
      && m.containers == map[s := "s", t := "t"]
      && m.tools == map[ToolName(SKILL, s, tool) := SkillTool("s", tool)]
                      [ToolName(SKILL, t, tool) := SkillTool("t", tool)]
  {
    var m0, one, two := Init(map[]), Enable(Simple(s, tool), Succeeds(None, "s")),
                        Enable(Simple(t, tool), Succeeds(None, "t"));
    ExecSnoc(m0, [], one);
    ExecSnoc(m0, [] + [one], two);
    assert TwoServices(s, t, tool) == [] + [one] + [two];
    assert m0.tools == map[] && Without(map[], Prefix(SKILL, s)) == map[];
    OneEnabled(m0, s, tool, "s");
    var m1 := Exec(m0, [] + [one]);
    ForeignTool(SKILL, t, s, tool);
    assert Without(m1.tools, Prefix(SKILL, t)) == m1.tools;
    OneEnabled(m1, t, tool, "t");
  }

  lemma FirstTarget(m: Mgr, names: seq<string>, n: string)
    requires Targets(m, names) && ContainersFirst(m, names) && n in m.containers
    ensures names != [] && names[0] in m.containers && FirstRaise(m, names, m.containers.Keys) == 0
  {
    assert n in names;
    var i :| 0 <= i < |names| && names[i] == n;
    assert i == 0 || names[0] in m.containers;
  }

  /** When the first stop raises, only the first target is gone. */
  lemma OnlyFirstStopped(m: Mgr, names: seq<string>, failing: set<string>, r: Mgr)
    requires names != [] && FirstRaise(m, names, failing) == 0 && Stopped(m, names, failing, r)
    ensures r.containers == m.containers - {names[0]}
    ensures forall k | k in m.tools && !StartsWith(k, Prefix(SKILL, names[0])) :: k in r.tools
  {
    assert Reached(m, names, failing) == [names[0]];
    assert SetOf([names[0]]) == {names[0]};
  }

  /** Two services whose containers cannot be stopped: the loop ends at the first, and the other one stays enabled. */
  lemma StopFailureExample(s: string, t: string, tool: string, names: seq<string>, r: Mgr)
    requires PrefixFree(s, t)
    requires var m := Exec(Init(map[]), TwoServices(s, t, tool));
      Targets(m, names) && ContainersFirst(m, names) && Stopped(m, names, {s, t}, r)
    ensures names != [] && !Cleared(r)
    ensures var other := if names[0] == s then t else s;
      other in r.containers && ToolName(SKILL, other, tool) in r.tools
  {
    BothEnabled(s, t, tool);
    var m := Exec(Init(map[]), TwoServices(s, t, tool));
    assert m.containers.Keys == {s, t};
    FirstTarget(m, names, s);
    var first, other := names[0], if names[0] == s then t else s;
    OnlyFirstStopped(m, names, {s, t}, r);
    ForeignTool(SKILL, first, other, tool);
    PrefixedIsSkillTool(ToolName(SKILL, other, tool), other);
  }

  /**
   After enabling a service, the entries under its prefix are exactly its tools before the first without a schema,
   routed to its container; the container is kept also when that tool makes enabling raise.
   */
  lemma EnabledTools(m: Mgr, skill: Skill, body: Option<string>, url: string, k: string)
    requires skill.kind == Service && StartsWith(k, Prefix(SKILL, skill.name))
    ensures var r := Enabled(m, skill, Succeeds(body, url));
      && (k in r.tools <==> exists t :: t in ToRegister(skill) && k == ToolName(SKILL, skill.name, t))
      && (forall t | t in ToRegister(skill) && k == ToolName(SKILL, skill.name, t) :: r.tools[k] == SkillTool(url, t))
      && skill.name in r.containers && r.containers[skill.name] == url
  {
    WithAllIs(Without(m.tools, Prefix(SKILL, skill.name)), Prefix(SKILL, skill.name), ToRegister(skill),
      HandlerFor(url));
  }

  /** A summary names the skill of a tool exactly when the skill's name cannot blur its own end. */
  lemma SummaryNamesSkill(skill: string, tool: string)
    ensures IsSkillTool(ToolName(SKILL, skill, tool))
    ensures SkillPart(ToolName(SKILL, skill, tool)) == skill <==> SeparatorSafe(skill)
  {
    ToolHasTwoSeps(skill, tool);
    var rest := skill + SEP + tool;
    assert ToolName(SKILL, skill, tool)[|NAMESPACE|..] == rest;
    assert SepAt(rest, |skill|);
    assert forall i: nat | i + 1 < |skill| :: SepAt(rest, i) == SepAt(skill, i);
    assert skill != "" ==> SepAt(rest, |skill| - 1) == (skill[|skill| - 1] == '_');
    assert rest[..|skill|] == skill;
  }

  /** Enabling a skill can wipe another skill's tools, when its prefix reaches them. */
  lemma EnableWipesOthers(m: Mgr, skill: Skill, body: Option<string>, url: string, other: string, tool: string)
    requires StartsWith(ToolName(SKILL, other, tool), Prefix(SKILL, skill.name))
    requires forall t | t in ToRegister(skill) :: ToolName(SKILL, skill.name, t) != ToolName(SKILL, other, tool)
    ensures ToolName(SKILL, other, tool) !in Enabled(m, skill, Succeeds(body, url)).tools
  {
    WithAllIs(Without(m.tools, Prefix(SKILL, skill.name)), Prefix(SKILL, skill.name), ToRegister(skill),
      HandlerFor(url));
  }
}
