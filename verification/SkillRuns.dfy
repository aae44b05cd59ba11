/**
 Which skill owns which tool, over every run of enabling and disabling: the skill namespace is the disjoint union of
 what the enabled skills registered, if and only if the names of the skills are pairwise prefix-free.
 */
module SkillRuns {
  import opened Common
  import opened Names
  import opened Registry
  import opened Skills

  /** What the last successful registration of a skill left: its tools and the container they are routed to. */
  datatype Share = Share(names: set<string>, url: string)

  datatype World = World(m: Mgr, shares: map<string, Share>)

  /** The container a registration routes to, if enabling gets that far. */
  function Registers(skill: Skill, outcome: Outcome): Option<string> {
    match outcome
    case Succeeds(_, url) => Some(url)
    case ContainerFails(_) => if skill.kind == Service then None else Some("")
    case _ => None
  }

  function Shared(shares: map<string, Share>, step: Step): map<string, Share> {
    match step
    case Enable(skill, outcome) =>
      if Registers(skill, outcome).None? then shares
      else shares[skill.name := Share(SetOf(ToRegister(skill)), Registers(skill, outcome).value)]
    case Disable(name, _) => shares - {name}
    case Elsewhere(_) => shares
  }

  function Run(others: Tools, steps: seq<Step>): World {
    if steps == [] then World(Init(others), map[])
    else
      var w := Run(others, steps[..|steps| - 1]);
      World(Apply(w.m, steps[|steps| - 1]), Shared(w.shares, steps[|steps| - 1]))
  }

  predicate Owns(shares: map<string, Share>, s: string, t: string) {
    s in shares && t in shares[s].names
  }

  /** The entries of the namespace are exactly the owned tools, routed to their owner's container, each owned once. */
  ghost predicate Partition(tools: Tools, shares: map<string, Share>) {
    && (forall s, t | Owns(shares, s, t) ::
          ToolName(SKILL, s, t) in tools && tools[ToolName(SKILL, s, t)] == SkillTool(shares[s].url, t))
    && (forall k | k in tools && StartsWith(k, NAMESPACE) ::
          exists s, t :: Owns(shares, s, t) && k == ToolName(SKILL, s, t))
    && (forall s, t, s', t' | Owns(shares, s, t) && Owns(shares, s', t')
          && ToolName(SKILL, s, t) == ToolName(SKILL, s', t') :: s == s' && t == t')
  }

  ghost predicate Sound(tools: Tools, shares: map<string, Share>, owners: set<string>) {
    Partition(tools, shares) && shares.Keys <= owners
  }

  lemma OwnedOnce(shares: map<string, Share>, owners: set<string>)
    requires PairwisePrefixFree(owners) && shares.Keys <= owners
    ensures forall s, t, s', t' | Owns(shares, s, t) && Owns(shares, s', t')
              && ToolName(SKILL, s, t) == ToolName(SKILL, s', t') :: s == s' && t == t'
  {
    forall s, t, s', t' | Owns(shares, s, t) && Owns(shares, s', t') && ToolName(SKILL, s, t) == ToolName(SKILL, s', t')
      ensures s == s' && t == t'
    {
      ToolNamesInjective(SKILL, s, s', t, t');
    }
  }

  /** Clearing a skill's prefix takes exactly what that skill owned. */
  lemma ClearSound(tools: Tools, shares: map<string, Share>, s: string, owners: set<string>)
    requires Sound(tools, shares, owners) && PairwisePrefixFree(owners) && s in owners
    ensures Sound(Without(tools, Prefix(SKILL, s)), shares - {s}, owners)
  {
    var cleared, rest := Without(tools, Prefix(SKILL, s)), shares - {s};
    forall r, t | Owns(rest, r, t)
      ensures ToolName(SKILL, r, t) in cleared && cleared[ToolName(SKILL, r, t)] == SkillTool(rest[r].url, t)
    {
      assert Owns(shares, r, t);
      ForeignTool(SKILL, s, r, t);
    }
    forall k | k in cleared && StartsWith(k, NAMESPACE)
      ensures exists r, t :: Owns(rest, r, t) && k == ToolName(SKILL, r, t)
    {
      var r, t :| Owns(shares, r, t) && k == ToolName(SKILL, r, t);
      assert Owns(rest, r, t);
    }
    OwnedOnce(rest, owners);
  }

  /** Registering adds exactly what is registered. */
  lemma AddSound(tools: Tools, shares: map<string, Share>, s: string, names: seq<string>, url: string,
                 owners: set<string>)
    requires Sound(tools, shares, owners) && PairwisePrefixFree(owners) && s in owners && s !in shares
    ensures Sound(WithAll(tools, Prefix(SKILL, s), names, HandlerFor(url)), shares[s := Share(SetOf(names), url)],
                  owners)
  {
    var added, more := WithAll(tools, Prefix(SKILL, s), names, HandlerFor(url)), shares[s := Share(SetOf(names), url)];
    WithAllIs(tools, Prefix(SKILL, s), names, HandlerFor(url));
    forall r, t | Owns(more, r, t)
      ensures ToolName(SKILL, r, t) in added && added[ToolName(SKILL, r, t)] == SkillTool(more[r].url, t)
    {
      if r != s { OthersStay(tools, shares, s, names, url, owners, r, t); }
    }
    forall k | k in added && StartsWith(k, NAMESPACE)
      ensures exists r, t :: Owns(more, r, t) && k == ToolName(SKILL, r, t)
    {
      if n :| n in names && k == Prefix(SKILL, s) + n {
        assert Owns(more, s, n) && k == ToolName(SKILL, s, n);
      } else {
        var r, t :| Owns(shares, r, t) && k == ToolName(SKILL, r, t);
        assert Owns(more, r, t);
      }
    }
    OwnedOnce(more, owners);
  }

  lemma OthersStay(tools: Tools, shares: map<string, Share>, s: string, names: seq<string>, url: string,
                   owners: set<string>, r: string, t: string)
    requires Sound(tools, shares, owners) && PairwisePrefixFree(owners) && s in owners && r != s && Owns(shares, r, t)
    ensures var k, added := ToolName(SKILL, r, t), WithAll(tools, Prefix(SKILL, s), names, HandlerFor(url));
      k in added && added[k] == SkillTool(shares[r].url, t)
  {
    var k := ToolName(SKILL, r, t);
    WithAllIs(tools, Prefix(SKILL, s), names, HandlerFor(url));
    ForeignTool(SKILL, s, r, t);
    assert forall n | n in names :: k != Prefix(SKILL, s) + n;
  }

  predicate StepOver(step: Step, owners: set<string>) {
    match step
    case Enable(skill, _) => skill.name in owners
    case Disable(name, _) => name in owners
    case Elsewhere(_) => true
  }

  lemma EnableSound(m: Mgr, shares: map<string, Share>, skill: Skill, outcome: Outcome, owners: set<string>)
    requires Sound(m.tools, shares, owners) && PairwisePrefixFree(owners) && skill.name in owners
    ensures Sound(Enabled(m, skill, outcome).tools, Shared(shares, Enable(skill, outcome)), owners)
  {
    if Registers(skill, outcome).Some? {
      var s, url, names := skill.name, Registers(skill, outcome).value, ToRegister(skill);
      ClearSound(m.tools, shares, s, owners);
      AddSound(Without(m.tools, Prefix(SKILL, s)), shares - {s}, s, names, url, owners);
      assert (shares - {s})[s := Share(SetOf(names), url)] == shares[s := Share(SetOf(names), url)];
    }
  }

  lemma {:induction false} RunSound(others: Tools, steps: seq<Step>, owners: set<string>)
    requires PairwisePrefixFree(owners) && forall i | 0 <= i < |steps| :: StepOver(steps[i], owners)
    ensures Sound(Run(others, steps).m.tools, Run(others, steps).shares, owners)
  {
    if steps == [] {
    } else {
      var n := |steps| - 1;
      RunSound(others, steps[..n], owners);
      var w := Run(others, steps[..n]);
      match steps[n]
      case Enable(skill, outcome) => EnableSound(w.m, w.shares, skill, outcome, owners);
      case Disable(name, _) => ClearSound(w.m.tools, w.shares, name, owners);
      case Elsewhere(_) =>
    }
  }

  // ---- the condition on names is exact ----

  /** Enable `t` with the tool `x`, then `s`, which has no tools. */
  function Collision(s: string, t: string, x: string): seq<Step> {
    [Enable(Skill(t, Service, "", Some([Tool(x, true)])), Succeeds(None, ""))]
    + [Enable(Skill(s, Knowledge, "", Some([])), Succeeds(None, ""))]
  }

  lemma CollisionBreaks(s: string, t: string, x: string)
    requires s != t && StartsWith(ToolName(SKILL, t, x), Prefix(SKILL, s))
    ensures var w := Run(map[], Collision(s, t, x)); !Partition(w.m.tools, w.shares)
  {
    var first := Collision(s, t, x)[0];
    assert [] + [first] == [first];
    var w1, w := Run(map[], [first]), Run(map[], Collision(s, t, x));
    assert ToRegister(first.skill) == [x] by { assert Named([Tool(x, true)]) == [x]; }
    assert x in SetOf([x]) && Owns(w.shares, t, x);
    assert w.m.tools == Without(w1.m.tools, Prefix(SKILL, s));
  }

  /** The namespace is the disjoint union of the enabled skills' tools, on every run, iff names are prefix-free. */
  lemma PartitionExact(owners: set<string>)
    ensures PairwisePrefixFree(owners)
       <==> forall others, steps | (forall i | 0 <= i < |steps| :: StepOver(steps[i], owners)) ::
              Partition(Run(others, steps).m.tools, Run(others, steps).shares)
  {
    if PairwisePrefixFree(owners) {
      forall others, steps | forall i | 0 <= i < |steps| :: StepOver(steps[i], owners)
        ensures Partition(Run(others, steps).m.tools, Run(others, steps).shares)
      {
        RunSound(others, steps, owners);
      }
    } else {
      var s, t :| s in owners && t in owners && s != t && !PrefixFree(s, t);
      PrefixFreeExact(SKILL, s, t);
      if Reaches(SKILL, s, t) {
        var x: string :| StartsWith(ToolName(SKILL, t, x), Prefix(SKILL, s));
        CollisionBreaks(s, t, x);
        assert forall i | 0 <= i < 2 :: StepOver(Collision(s, t, x)[i], owners);
      } else {
        var x: string :| StartsWith(ToolName(SKILL, s, x), Prefix(SKILL, t));
        CollisionBreaks(t, s, x);
        assert forall i | 0 <= i < 2 :: StepOver(Collision(t, s, x)[i], owners);
      }
    }
  }
}
