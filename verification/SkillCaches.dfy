/** Containers and caches of the skill manager after every run, from the list of operations alone. */
module SkillCaches {
  import opened Common
  import opened Names
  import opened Registry
  import opened Skills

  function Lookup(m: map<string, string>, n: string): Option<string> {
    if n in m then Some(m[n]) else None
  }

  // ---- what one enable does ----

  /** The package was read: neither the download nor the manifest failed. */
  predicate WasRead(outcome: Outcome) {
    outcome.ContainerFails? || outcome.Succeeds?
  }

  /** Enabling gets as far as the registry. */
  predicate Reaches(skill: Skill, outcome: Outcome) {
    outcome.Succeeds? || (outcome.ContainerFails? && skill.kind != Service)
  }

  /**
   Enabling raises exactly if something around it fails, the `tools` key has no value, or a tool of a service has no
   schema.
   */
  lemma RaisesExact(skill: Skill, outcome: Outcome)
    ensures Raises(skill, outcome) <==>
      || !Reaches(skill, outcome)
      || skill.tools.None?
      || (skill.kind == Service && exists t :: t in skill.tools.value && !t.hasSchema)
  {
    if skill.tools.Some? {
      var tools := skill.tools.value;
      var n := FirstNull(tools);
      if n < |tools| { assert tools[n] in tools; }
      if t :| t in tools && !t.hasSchema {
        var j :| 0 <= j < |tools| && tools[j] == t;
      }
    }
  }

  /**
   What enabling changes, however far it gets: before the package is read nothing; then the caches of this skill; then,
   for a service that started, its container; and only entries of the registry under its prefix.
   */
  lemma EnableExact(m: Mgr, skill: Skill, outcome: Outcome, n: string)
    ensures var r := Enabled(m, skill, outcome);
      && (!WasRead(outcome) ==> r == m)
      && Lookup(r.content, n) == (if WasRead(outcome) && n == skill.name && outcome.body.Some? then outcome.body
                                  else Lookup(m.content, n))
      && Lookup(r.descriptions, n) == (if WasRead(outcome) && n == skill.name && skill.description != ""
                                       then Some(skill.description) else Lookup(m.descriptions, n))
      && Lookup(r.containers, n) == (if outcome.Succeeds? && n == skill.name && skill.kind == Service
                                     then Some(outcome.url) else Lookup(m.containers, n))
      && (!Reaches(skill, outcome) ==> r.tools == m.tools)
  {
  }

  /** Outside the skill's prefix enabling leaves every entry; under it, one that is not a service has none. */
  lemma EnabledElsewhere(m: Mgr, skill: Skill, outcome: Outcome, k: string)
    requires !StartsWith(k, Prefix(SKILL, skill.name)) || (Reaches(skill, outcome) && skill.kind != Service)
    ensures var r := Enabled(m, skill, outcome);
      if StartsWith(k, Prefix(SKILL, skill.name)) then k !in r.tools
      else (k in r.tools <==> k in m.tools) && (k in m.tools ==> r.tools[k] == m.tools[k])
  {
    if Reaches(skill, outcome) {
      var p, url := Prefix(SKILL, skill.name), if outcome.Succeeds? then outcome.url else "";
      WithAllIs(Without(m.tools, p), p, ToRegister(skill), HandlerFor(url));
      forall t ensures StartsWith(p + t, p) { assert (p + t)[..|p|] == p; }
    }
  }

  // ---- every run ----

  /** The container of the last enable that started one, unless the skill was disabled since. */
  function LastContainer(steps: seq<Step>, n: string): Option<string> {
    if steps == [] then None
    else
      var before := LastContainer(steps[..|steps| - 1], n);
      match steps[|steps| - 1]
      case Enable(skill, Succeeds(_, url)) => if skill.name == n && skill.kind == Service then Some(url) else before
      case Disable(name, _) => if name == n then None else before
      case _ => before
  }

  /** Does the step clear the caches of the skill? A disable does, unless stopping its container raises. */
  predicate Clears(before: seq<Step>, step: Step, n: string) {
    step.Disable? && step.name == n && !(step.stopFails && LastContainer(before, n).Some?)
  }

  /** The body of the last package that was read and had one, unless the caches were cleared since. */
  function LastBody(steps: seq<Step>, n: string): Option<string> {
    if steps == [] then None
    else
      var before, step := steps[..|steps| - 1], steps[|steps| - 1];
      if step.Enable? && step.skill.name == n && WasRead(step.outcome) && step.outcome.body.Some? then step.outcome.body
      else if Clears(before, step, n) then None
      else LastBody(before, n)
  }

  function LastDescription(steps: seq<Step>, n: string): Option<string> {
    if steps == [] then None
    else
      var before, step := steps[..|steps| - 1], steps[|steps| - 1];
      if step.Enable? && step.skill.name == n && WasRead(step.outcome) && step.skill.description != "" then
        Some(step.skill.description)
      else if Clears(before, step, n) then None
      else LastDescription(before, n)
  }

  lemma DisableExact(m: Mgr, name: string, stopFails: bool, n: string)
    ensures var r, kept := Disabled(m, name, stopFails), n != name || (stopFails && n in m.containers);
      && Lookup(r.containers, n) == (if n == name then None else Lookup(m.containers, n))
      && Lookup(r.content, n) == (if kept then Lookup(m.content, n) else None)
      && Lookup(r.descriptions, n) == (if kept then Lookup(m.descriptions, n) else None)
  {
  }

  /** After every run of enable and disable, also failed ones, for all names: each skill has what it was given last. */
  lemma {:induction false} CachesExact(others: Tools, steps: seq<Step>, n: string)
    ensures var m := Exec(Init(others), steps);
      && Lookup(m.containers, n) == LastContainer(steps, n)
      && Lookup(m.content, n) == LastBody(steps, n)
      && Lookup(m.descriptions, n) == LastDescription(steps, n)
  {
    if steps == [] {
    } else {
      var before, step := steps[..|steps| - 1], steps[|steps| - 1];
      var m := Exec(Init(others), before);
      CachesExact(others, before, n);
      match step
      case Enable(skill, outcome) => EnableExact(m, skill, outcome, n);
      case Disable(name, stopFails) => DisableExact(m, name, stopFails, n);
      case Elsewhere(_) =>
    }
  }
}
