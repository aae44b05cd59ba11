/** Validation of skill packages: the manifest, the paths in the archive and the match of declared tools and scripts. */
module Validator {
  import opened Common
  import opened Names
  import Registry
  import Skills

  /** The `parameters` key of a tool: absent, present but null, a dictionary, or anything else. */
  datatype Params = NoParams | NullParams | DictParams | OtherParams

  /** An entry of the manifest's tool list; absent fields are empty. */
  datatype ToolDecl = NotDict | Tool(name: string, description: string, params: Params)

  datatype ToolList = Absent | NullTools | NotList | Declared(tools: seq<ToolDecl>)

  datatype Metadata = Metadata(name: string, version: string, description: string, tools: ToolList)

  /** The archive: its entry names, and the front matter of `SKILL.md` unless it cannot be parsed. */
  datatype Archive = BadZip | Archive(names: seq<string>, manifest: Option<Metadata>)

  datatype Problem =
    | InvalidZip | NoManifest | PathTraversal(name: string) | Unparsable | MissingField(name: string) | ToolsNotList
    | BadTool(index: nat) | MissingScripts(names: set<string>) | ExtraScripts(names: set<string>)

  datatype Verdict = Accepted(kind: Skills.Kind, metadata: Metadata) | Rejected(problem: Problem)

  const MANIFEST := "SKILL.md"
  const SCRIPT_DIR := "script/"
  const SCRIPT_EXT := ".py"

  // ---- the checks, in the order they run ----

  function Split(s: string, sep: char): (parts: seq<string>)
    ensures parts != []
  {
    if s == "" then [""]
    else
      var rest := Split(s[1..], sep);
      if s[0] == sep then [""] + rest else [[s[0]] + rest[0]] + rest[1..]
  }

  predicate UnsafePath(name: string) {
    "/" <= name || ".." in Split(name, '/')
  }

  function FirstUnsafe(names: seq<string>): Option<string> {
    if names == [] then None
    else if UnsafePath(names[0]) then Some(names[0])
    else FirstUnsafe(names[1..])
  }

  predicate GoodTool(t: ToolDecl) {
    t.Tool? && t.name != "" && t.description != "" && !t.params.OtherParams?
  }

  /** The index of the first tool entry that is refused, or the length of the list. */
  function FirstBadTool(tools: seq<ToolDecl>): (i: nat)
    ensures i <= |tools|
    ensures i < |tools| ==> !GoodTool(tools[i])
    ensures forall j | 0 <= j < i :: GoodTool(tools[j])
  {
    if tools == [] || !GoodTool(tools[0]) then 0 else 1 + FirstBadTool(tools[1..])
  }

  function ManifestProblem(m: Metadata): Option<Problem> {
    if m.name == "" then Some(MissingField("name"))
    else if m.version == "" then Some(MissingField("version"))
    else if m.description == "" then Some(MissingField("description"))
    else
      match m.tools
      case Absent => None
      case NullTools => None
      case NotList => Some(ToolsNotList)
      case Declared(tools) =>
        var i := FirstBadTool(tools);
        if i < |tools| then Some(BadTool(i)) else None
  }

  predicate EndsWith(s: string, suffix: string) {
    |suffix| <= |s| && s[|s| - |suffix|..] == suffix
  }

  predicate IsScript(name: string) {
    SCRIPT_DIR <= name && EndsWith(name, SCRIPT_EXT)
  }

  lemma ScriptLength(name: string)
    requires IsScript(name)
    ensures |SCRIPT_DIR| + |SCRIPT_EXT| <= |name|
  {
    assert name[|SCRIPT_DIR| - 1] == '/';
    assert name[|name| - 3] == SCRIPT_EXT[0] && name[|name| - 2] == SCRIPT_EXT[1];
    assert name[4] == 'p' && name[5] == 't';
    assert name[|name| - 1] == SCRIPT_EXT[2];
  }

  function Stem(name: string): string
    requires IsScript(name)
  {
    ScriptLength(name);
    name[|SCRIPT_DIR|..|name| - |SCRIPT_EXT|]
  }

  /** The archive entry of the script `stem`. */
  function ScriptName(stem: string): string {
    SCRIPT_DIR + stem + SCRIPT_EXT
  }

  function Stems(names: seq<string>): set<string> {
    set n | n in names && IsScript(n) :: Stem(n)
  }

  function ToolsOf(m: Metadata): seq<ToolDecl> {
    if m.tools.Declared? then m.tools.tools else []
  }

  function ToolNames(m: Metadata): set<string> {
    set t | t in ToolsOf(m) && t.Tool? :: t.name
  }

  function InferKind(m: Metadata, hasScripts: bool): Skills.Kind {
    if !hasScripts then Skills.Knowledge
    else if |ToolsOf(m)| > 0 then Skills.Service
    else Skills.ScriptKind
  }

  function Validate(a: Archive): Verdict {
    if a.BadZip? then Rejected(InvalidZip)
    else if MANIFEST !in a.names then Rejected(NoManifest)
    else if FirstUnsafe(a.names).Some? then Rejected(PathTraversal(FirstUnsafe(a.names).value))
    else if a.manifest.None? then Rejected(Unparsable)
    else
      var m := a.manifest.value;
      var problem := ManifestProblem(m);
      if problem.Some? then Rejected(problem.value)
      else
        var hasScripts := HasScripts(a.names);
        if ToolsOf(m) != [] || hasScripts then
          var missing, extra := ToolNames(m) - Stems(a.names), Stems(a.names) - ToolNames(m);
          if missing != {} then Rejected(MissingScripts(missing))
          else if extra != {} then Rejected(ExtraScripts(extra))
          else Accepted(InferKind(m, hasScripts), m)
        else Accepted(InferKind(m, hasScripts), m)
  }

  // ---- safe paths ----

  /** `name[i..i + 2]` is a component `..`: it has a slash or an end of the name on both sides. */
  predicate UpAt(name: string, i: nat) {
    && i + 2 <= |name| && name[i] == '.' && name[i + 1] == '.'
    && (i == 0 || name[i - 1] == '/') && (i + 2 == |name| || name[i + 2] == '/')
  }

  /** The name is relative and no component of it goes up. */
  ghost predicate SafeName(name: string) {
    (name != "" ==> name[0] != '/') && forall i: nat :: !UpAt(name, i)
  }

  lemma UpShift(s: string, i: nat)
    requires s != "" && (i > 0 || s[0] == '/')
    ensures UpAt(s, i + 1) <==> UpAt(s[1..], i)
  {
  }

  /** A `..` among the parts after the first starts behind a slash. */
  ghost predicate UpLater(s: string) {
    exists i: nat :: i > 0 && UpAt(s, i)
  }

  lemma {:induction false} UpParts(s: string)
    ensures ".." in Split(s, '/')[1..] <==> UpLater(s)
  {
    if s == "" {
    } else {
      var t, parts := s[1..], Split(s[1..], '/');
      UpParts(t);
      FirstUp(t);
      assert parts == [parts[0]] + parts[1..];
      assert Split(s, '/')[1..] == if s[0] == '/' then parts else parts[1..];
      if i: nat :| i > 0 && UpAt(s, i) { UpShift(s, i - 1); }
      if i: nat :| i > 0 && UpAt(t, i) { UpShift(s, i); }
      if s[0] == '/' { UpShift(s, 0); }
    }
  }

  lemma FirstUp(s: string)
    ensures Split(s, '/')[0] == ".." <==> UpAt(s, 0)
  {
    FirstPart(s);
    var p := Split(s, '/')[0];
    assert forall n | 0 <= n < |p| :: p[n] == s[n] && p[n] in p;
  }

  /** The first part ends at the first slash. */
  lemma {:induction false} FirstPart(s: string)
    ensures var p := Split(s, '/')[0]; p <= s && '/' !in p && (|p| < |s| ==> s[|p|] == '/')
  {
    if s != "" && s[0] != '/' {
      FirstPart(s[1..]);
      assert s == [s[0]] + s[1..];
    }
  }

  /** The check of the source is exactly this. */
  lemma PathExact(name: string)
    ensures !UnsafePath(name) <==> SafeName(name)
  {
    var parts := Split(name, '/');
    UpParts(name);
    FirstUp(name);
    assert parts == [parts[0]] + parts[1..];
    assert ".." in parts <==> parts[0] == ".." || ".." in parts[1..];
    if exists i: nat :: UpAt(name, i) {
      var i: nat :| UpAt(name, i);
      assert i == 0 || UpLater(name);
    }
  }

  /** A way to write a name as components between slashes. */
  function Joined(parts: seq<string>): string {
    if parts == [] then "" else if |parts| == 1 then parts[0] else parts[0] + "/" + Joined(parts[1..])
  }

  /** A directory as the path from the root; `..` goes up one level, which at the root stays there. */
  function Resolve(dir: seq<string>, parts: seq<string>): seq<string> {
    if parts == [] then dir
    else
      var at, p := Resolve(dir, parts[..|parts| - 1]), parts[|parts| - 1];
      if p == "" || p == "." then at
      else if p == ".." then (if at == [] then [] else at[..|at| - 1])
      else at + [p]
  }

  /** Where a relative name is extracted to, and where it would be resolved to if it were absolute. */
  function Target(dir: seq<string>, name: string, parts: seq<string>): seq<string> {
    Resolve(if name != "" && name[0] == '/' then [] else dir, parts)
  }

  lemma UpBehind(first: string, rest: string, j: nat)
    requires UpAt(rest, j)
    ensures UpAt(first + "/" + rest, |first| + 1 + j)
  {
    var s := first + "/" + rest;
    assert s[|first|] == '/' && forall n | 0 <= n < |rest| :: s[|first| + 1 + n] == rest[n];
  }

  lemma {:induction false} PartsUp(parts: seq<string>, k: nat) returns (i: nat)
    requires k < |parts| && parts[k] == ".."
    ensures UpAt(Joined(parts), i)
  {
    if k > 0 {
      var j := PartsUp(parts[1..], k - 1);
      i := |parts[0]| + 1 + j;
      UpBehind(parts[0], Joined(parts[1..]), j);
    } else {
      i := 0;
    }
  }

  lemma {:induction false} ResolveInside(dir: seq<string>, parts: seq<string>)
    requires ".." !in parts
    ensures dir <= Resolve(dir, parts)
  {
    if parts == [] {
    } else {
      ResolveInside(dir, parts[..|parts| - 1]);
    }
  }

  /**
   Extraction stays where it belongs: however a safe name is written as components, resolving them one after the other
   from the extraction directory never leaves it, at no component on the way.
   */
  lemma StaysInside(dir: seq<string>, name: string, parts: seq<string>, k: nat)
    requires SafeName(name) && name == Joined(parts) && k <= |parts|
    ensures dir <= Target(dir, name, parts[..k])
  {
    if ".." in parts {
      var n :| 0 <= n < |parts| && parts[n] == "..";
      var i := PartsUp(parts, n);
      assert false;
    }
    ResolveInside(dir, parts[..k]);
  }

  // ---- what acceptance means ----

  lemma {:induction false} FirstUnsafeIs(names: seq<string>)
    ensures FirstUnsafe(names).None? <==> forall i | 0 <= i < |names| :: SafeName(names[i])
    ensures FirstUnsafe(names).Some? ==>
      exists i :: 0 <= i < |names| && FirstUnsafe(names).value == names[i] && !SafeName(names[i])
                  && forall j | 0 <= j < i :: SafeName(names[j])
  {
    if names == [] {
    } else {
      var rest := names[1..];
      FirstUnsafeIs(rest);
      PathExact(names[0]);
      assert forall i | 1 <= i < |names| :: names[i] == rest[i - 1];
      if !UnsafePath(names[0]) && FirstUnsafe(rest).Some? {
        var i :| 0 <= i < |rest| && FirstUnsafe(rest).value == rest[i] && !SafeName(rest[i])
                 && forall j | 0 <= j < i :: SafeName(rest[j]);
        assert names[i + 1] == rest[i] && forall j | 0 < j < i + 1 :: names[j] == rest[j - 1];
      }
    }
  }

  ghost predicate GoodManifest(m: Metadata) {
    && m.name != "" && m.version != "" && m.description != ""
    && !m.tools.NotList?
    && forall t | t in ToolsOf(m) :: t.Tool? && t.name != "" && t.description != "" && !t.params.OtherParams?
  }

  lemma ManifestIs(m: Metadata)
    ensures ManifestProblem(m).None? <==> GoodManifest(m)
  {
    var tools := ToolsOf(m);
    var i := FirstBadTool(tools);
    if i < |tools| { assert tools[i] in tools; }
  }

  predicate HasScripts(names: seq<string>) {
    exists n :: n in names && IsScript(n)
  }

  /** No script has no stem, no declared tool has no name. */
  lemma NothingDeclared(m: Metadata, names: seq<string>)
    requires GoodManifest(m)
    ensures HasScripts(names) <==> Stems(names) != {}
    ensures ToolsOf(m) != [] <==> ToolNames(m) != {}
  {
    if n :| n in names && IsScript(n) {
      assert Stem(n) in Stems(names);
    }
    if ToolsOf(m) != [] {
      assert ToolsOf(m)[0] in ToolsOf(m) && ToolsOf(m)[0].name in ToolNames(m);
    }
  }

  /** A name is a script's exactly when it is made from a stem, and the stem can be read off it. */
  lemma ScriptExact(name: string, stem: string)
    ensures IsScript(ScriptName(stem)) && Stem(ScriptName(stem)) == stem
    ensures IsScript(name) ==> name == ScriptName(Stem(name))
  {
    var s := ScriptName(stem);
    assert s[|s| - 3..] == SCRIPT_EXT;
    if IsScript(name) {
      ScriptLength(name);
      assert name == name[..7] + name[7..|name| - 3] + name[|name| - 3..];
    }
  }

  lemma StemsAre(names: seq<string>, t: string)
    ensures t in Stems(names) <==> ScriptName(t) in names
  {
    ScriptExact("", t);
    if t in Stems(names) {
      var n :| n in names && IsScript(n) && Stem(n) == t;
      ScriptExact(n, t);
    }
  }

  lemma ScriptsMatch(tools: set<string>, names: seq<string>)
    ensures tools == Stems(names) <==> forall t :: t in tools <==> ScriptName(t) in names
  {
    forall t ensures t in Stems(names) <==> ScriptName(t) in names { StemsAre(names, t); }
  }

  /**
   A package is accepted exactly when its manifest is there and complete, no path leaves the archive, and it has the
   script of every declared tool and no other. Its kind is then decided by its tools alone, and is never `script`.
   */
  lemma AcceptanceExact(a: Archive)
    ensures Validate(a).Accepted?
       <==> && a.Archive? && MANIFEST in a.names
            && (forall i | 0 <= i < |a.names| :: SafeName(a.names[i]))
            && a.manifest.Some? && GoodManifest(a.manifest.value)
            && (forall t :: t in ToolNames(a.manifest.value) <==> ScriptName(t) in a.names)
    ensures Validate(a).Accepted? ==>
      var m := a.manifest.value;
      Validate(a) == Accepted(if ToolsOf(m) != [] then Skills.Service else Skills.Knowledge, m)
  {
    if a.Archive? {
      FirstUnsafeIs(a.names);
      if a.manifest.Some? {
        var m := a.manifest.value;
        ManifestIs(m);
        if GoodManifest(m) {
          NothingDeclared(m, a.names);
          ScriptsMatch(ToolNames(m), a.names);
        }
      }
    }
  }

  /** The checks before the manifest is read pass. */
  ghost predicate Opens(a: Archive) {
    a.Archive? && MANIFEST in a.names && forall i | 0 <= i < |a.names| :: SafeName(a.names[i])
  }

  /** Which problem is reported before the manifest is looked at: the first check that fails. */
  lemma OpeningExact(a: Archive, n: string)
    ensures Validate(a) == Rejected(InvalidZip) <==> a.BadZip?
    ensures Validate(a) == Rejected(NoManifest) <==> a.Archive? && MANIFEST !in a.names
    ensures Validate(a) == Rejected(PathTraversal(n)) <==>
      && a.Archive? && MANIFEST in a.names
      && exists i :: 0 <= i < |a.names| && a.names[i] == n && !SafeName(n)
                     && forall j | 0 <= j < i :: SafeName(a.names[j])
    ensures Validate(a) == Rejected(Unparsable) <==> Opens(a) && a.manifest.None?
  {
    if a.Archive? { FirstUnsafeIs(a.names); }
  }

  /** Which problem of a manifest is reported: an empty field, in order, or the first tool entry that is wrong. */
  lemma ManifestExact(a: Archive, f: string, i: nat)
    requires Opens(a) && a.manifest.Some?
    ensures var m := a.manifest.value;
      && (Validate(a) == Rejected(MissingField(f)) <==>
            || (f == "name" && m.name == "")
            || (f == "version" && m.name != "" && m.version == "")
            || (f == "description" && m.name != "" && m.version != "" && m.description == ""))
      && (Validate(a) == Rejected(ToolsNotList) <==>
            m.name != "" && m.version != "" && m.description != "" && m.tools.NotList?)
      && (Validate(a) == Rejected(BadTool(i)) <==>
            && m.name != "" && m.version != "" && m.description != ""
            && i < |ToolsOf(m)| && !GoodTool(ToolsOf(m)[i]) && forall j | 0 <= j < i :: GoodTool(ToolsOf(m)[j]))
  {
    FirstUnsafeIs(a.names);
  }

  /** A good manifest with nothing declared and no scripts has nothing to match. */
  lemma MatchVerdict(a: Archive)
    requires Opens(a) && a.manifest.Some? && GoodManifest(a.manifest.value)
    ensures var missing := ToolNames(a.manifest.value) - Stems(a.names);
      var extra := Stems(a.names) - ToolNames(a.manifest.value);
      && (Validate(a).Accepted? <==> missing == {} && extra == {})
      && (missing != {} ==> Validate(a) == Rejected(MissingScripts(missing)))
      && (missing == {} && extra != {} ==> Validate(a) == Rejected(ExtraScripts(extra)))
  {
    FirstUnsafeIs(a.names);
    ManifestIs(a.manifest.value);
    NothingDeclared(a.manifest.value, a.names);
  }

  /** Which mismatch is reported: tools without a script before scripts without a tool, and all of them. */
  lemma MatchExact(a: Archive, s: set<string>)
    requires Opens(a) && a.manifest.Some? && GoodManifest(a.manifest.value)
    ensures var tools := ToolNames(a.manifest.value);
      && (Validate(a) == Rejected(MissingScripts(s)) <==>
            s != {} && forall t :: t in s <==> t in tools && ScriptName(t) !in a.names)
      && (Validate(a) == Rejected(ExtraScripts(s)) <==>
            && (forall t | t in tools :: ScriptName(t) in a.names)
            && s != {} && forall t :: t in s <==> t !in tools && ScriptName(t) in a.names)
  {
    MatchVerdict(a);
    DifferenceIs(ToolNames(a.manifest.value), a.names, s);
  }

  lemma DifferenceIs(tools: set<string>, names: seq<string>, s: set<string>)
    ensures s == tools - Stems(names) <==> forall t :: t in s <==> t in tools && ScriptName(t) !in names
    ensures s == Stems(names) - tools <==> forall t :: t in s <==> t !in tools && ScriptName(t) in names
    ensures tools - Stems(names) == {} <==> forall t | t in tools :: ScriptName(t) in names
  {
    forall t ensures t in Stems(names) <==> ScriptName(t) in names { StemsAre(names, t); }
    forall t | t in tools && t !in Stems(names) ensures tools - Stems(names) != {} { assert t in tools - Stems(names); }
  }

  predicate AllTools(decls: seq<ToolDecl>) {
    forall i | 0 <= i < |decls| :: decls[i].Tool?
  }

  function ToTools(decls: seq<ToolDecl>): seq<Skills.Tool>
    requires AllTools(decls)
  {
    seq(|decls|, i requires 0 <= i < |decls| => Skills.Tool(decls[i].name, !decls[i].params.NullParams?))
  }

  /** The skill record of an accepted package. */
  function SkillOf(m: Metadata, kind: Skills.Kind): Skills.Skill
    requires AllTools(ToolsOf(m))
  {
    Skills.Skill(m.name, kind, m.description,
      if m.tools.NullTools? then None else Some(ToTools(ToolsOf(m))))
  }

  predicate IsNull(d: ToolDecl) {
    d.Tool? && d.params.NullParams?
  }

  lemma GoodTools(m: Metadata)
    requires GoodManifest(m)
    ensures AllTools(ToolsOf(m))
  {
    var decls := ToolsOf(m);
    forall i | 0 <= i < |decls| ensures decls[i].Tool? { assert GoodTool(decls[i]); }
  }

  lemma SomeNull(decls: seq<ToolDecl>)
    requires AllTools(decls)
    ensures Skills.FirstNull(ToTools(decls)) < |decls| <==> exists d :: d in decls && IsNull(d)
  {
    var tools := ToTools(decls);
    var n := Skills.FirstNull(tools);
    if n < |decls| {
      assert !tools[n].hasSchema && IsNull(decls[n]);
    } else {
      forall d | d in decls ensures !IsNull(d) {
        var i :| 0 <= i < |decls| && decls[i] == d;
        assert tools[i].hasSchema;
      }
    }
  }

  /** Enabling an accepted package can raise although nothing around it fails: exactly when a key is there but null. */
  lemma AcceptedEnables(a: Archive, body: Option<string>, url: string)
    requires Validate(a).Accepted?
    ensures GoodManifest(a.manifest.value) && AllTools(ToolsOf(a.manifest.value))
    ensures var m := a.manifest.value;
      Skills.Raises(SkillOf(m, Validate(a).kind), Skills.Succeeds(body, url))
      <==> m.tools.NullTools? || exists d :: d in ToolsOf(m) && IsNull(d)
  {
    AcceptanceExact(a);
    GoodTools(a.manifest.value);
    SomeNull(ToolsOf(a.manifest.value));
  }

  /** The names declared before the first entry with null parameters. */
  function EarlyNames(decls: seq<ToolDecl>): set<string> {
    if decls == [] || !decls[0].Tool? || IsNull(decls[0]) then {}
    else {decls[0].name} + EarlyNames(decls[1..])
  }

  lemma {:induction false} EarlyAll(decls: seq<ToolDecl>)
    requires AllTools(decls) && forall d | d in decls :: !IsNull(d)
    ensures EarlyNames(decls) == set d | d in decls && d.Tool? :: d.name
  {
    if decls == [] {
    } else {
      var rest := decls[1..];
      EarlyAll(rest);
      assert decls == [decls[0]] + rest;
      assert forall d :: d in decls <==> d == decls[0] || d in rest;
    }
  }

  lemma {:induction false} EarlyRegistered(decls: seq<ToolDecl>, t: string)
    requires AllTools(decls)
    ensures t in Skills.Named(ToTools(decls)[..Skills.FirstNull(ToTools(decls))]) <==> t in EarlyNames(decls)
  {
    if decls != [] && !IsNull(decls[0]) {
      var rest, tools := decls[1..], ToTools(decls);
      EarlyRegistered(rest, t);
      assert tools[1..] == ToTools(rest);
      var n := Skills.FirstNull(ToTools(rest));
      assert Skills.FirstNull(tools) == n + 1;
      assert Skills.Named(tools[..n + 1]) == [decls[0].name] + Skills.Named(ToTools(rest)[..n]);
    }
  }

  /**
   Enabling an accepted service registers exactly one tool per script of its archive, if and only if every declared name
   stands before the first null `parameters`; without a null that is always so.
   */
  lemma AcceptedServiceTools(a: Archive, mgr: Skills.Mgr, body: Option<string>, url: string)
    requires Validate(a).Accepted? && Validate(a).kind == Skills.Service
    ensures GoodManifest(a.manifest.value) && AllTools(ToolsOf(a.manifest.value))
    ensures var m := a.manifest.value;
      var tools := Skills.Enabled(mgr, SkillOf(m, Skills.Service), Skills.Succeeds(body, url)).tools;
      && ((forall d | d in ToolsOf(m) :: !IsNull(d)) ==> EarlyNames(ToolsOf(m)) == ToolNames(m))
      && (ExactlyScripts(tools, m.name, a.names) <==> EarlyNames(ToolsOf(m)) == ToolNames(m))
  {
    AcceptanceExact(a);
    var m := a.manifest.value;
    GoodTools(m);
    ScriptsMatch(ToolNames(m), a.names);
    var skill := SkillOf(m, Skills.Service);
    var tools := Skills.Enabled(mgr, skill, Skills.Succeeds(body, url)).tools;
    if forall d | d in ToolsOf(m) :: !IsNull(d) { EarlyAll(ToolsOf(m)); }
    forall t ensures ToolName(Skills.SKILL, m.name, t) in tools <==> t in EarlyNames(ToolsOf(m)) {
      EarlyRegistered(ToolsOf(m), t);
      EnabledTool(mgr, skill, body, url, t);
    }
    OneToolPerScript(tools, m.name, a.names, EarlyNames(ToolsOf(m)));
  }

  /** Under the skill's prefix there is a tool for every script and nothing else. */
  ghost predicate ExactlyScripts(tools: Registry.Tools, skill: string, names: seq<string>) {
    forall t :: ToolName(Skills.SKILL, skill, t) in tools <==> ScriptName(t) in names
  }

  lemma OneToolPerScript(tools: Registry.Tools, skill: string, names: seq<string>, registered: set<string>)
    requires forall t :: ToolName(Skills.SKILL, skill, t) in tools <==> t in registered
    ensures ExactlyScripts(tools, skill, names) <==> registered == Stems(names)
  {
    ScriptsMatch(registered, names);
    if ExactlyScripts(tools, skill, names) {
      forall t ensures t in registered <==> ScriptName(t) in names {
        assert ToolName(Skills.SKILL, skill, t) in tools <==> t in registered;
      }
    }
  }

  lemma EnabledTool(mgr: Skills.Mgr, skill: Skills.Skill, body: Option<string>, url: string, t: string)
    requires skill.kind == Skills.Service
    ensures ToolName(Skills.SKILL, skill.name, t) in Skills.Enabled(mgr, skill, Skills.Succeeds(body, url)).tools
       <==> t in Skills.ToRegister(skill)
  {
    var p := Prefix(Skills.SKILL, skill.name);
    var k := ToolName(Skills.SKILL, skill.name, t);
    assert k == p + t && k[..|p|] == p;
    Skills.EnabledTools(mgr, skill, body, url, k);
    forall u | k == ToolName(Skills.SKILL, skill.name, u) ensures u == t {
      assert ToolName(Skills.SKILL, skill.name, u) == p + u;
      assert k[|p|..] == t && (p + u)[|p|..] == u;
    }
  }

  // ---- a package that is accepted and cannot be enabled ----

  lemma {:induction false} SplitWhole(s: string, sep: char)
    requires sep !in s
    ensures Split(s, sep) == [s]
  {
    if s == "" {
    } else {
      assert s[0] in s && forall c | c in s[1..] :: c in s;
      SplitWhole(s[1..], sep);
      assert [s[0]] + s[1..] == s;
    }
  }

  lemma {:induction false} SplitFirst(a: string, b: string, sep: char)
    requires sep !in a
    ensures Split(a + [sep] + b, sep) == [a] + Split(b, sep)
  {
    var s := a + [sep] + b;
    if a == "" {
      assert s[0] == sep && s[1..] == b;
    } else {
      assert a[0] in a && forall c | c in a[1..] :: c in a;
      assert s[0] == a[0] && s[1..] == a[1..] + [sep] + b;
      SplitFirst(a[1..], b, sep);
      assert ([a[1..]] + Split(b, sep))[1..] == Split(b, sep) && [a[0]] + a[1..] == a;
    }
  }

  lemma ScriptSafe(stem: string, dir: string, file: string)
    requires '/' !in stem && dir == "script" && file == stem + SCRIPT_EXT
    ensures SafeName(ScriptName(stem))
  {
    var n := ScriptName(stem);
    assert n == dir + ['/'] + file && n[0] == 's';
    assert '/' !in file by { assert forall c | c in file :: c in stem || c in SCRIPT_EXT; }
    SplitFirst(dir, file, '/');
    SplitWhole(file, '/');
    assert file[|file| - 1] == 'y' && [dir] + [file] == [dir, file];
    PathExact(n);
  }

  lemma PlainSafe(name: string)
    requires name != "" && name != ".." && '/' !in name
    ensures SafeName(name)
  {
    SplitWhole(name, '/');
    assert name[0] in name;
    PathExact(name);
  }

  /** A package with one script, whose tool has a `parameters` key without a value. */
  function NullKeyed(stem: string): Metadata {
    Metadata("greet", "1", "says hello", Declared([Tool(stem, "runs", NullParams)]))
  }

  lemma NullKeyedParts(stem: string)
    requires stem != ""
    ensures var m, names := NullKeyed(stem), [MANIFEST, ScriptName(stem)];
      && GoodManifest(m) && AllTools(ToolsOf(m)) && (exists d :: d in ToolsOf(m) && IsNull(d))
      && ToolNames(m) == {stem} && Stems(names) == {stem} && EarlyNames(ToolsOf(m)) == {}
  {
    var decl := Tool(stem, "runs", NullParams);
    var m, names := NullKeyed(stem), [MANIFEST, ScriptName(stem)];
    assert ToolsOf(m) == [decl] && decl in ToolsOf(m) && IsNull(decl);
    assert ScriptName(stem) in names;
    assert !IsScript(MANIFEST) by { assert MANIFEST[0] != SCRIPT_DIR[0]; }
    assert forall n | n in names && IsScript(n) :: n == ScriptName(stem);
  }

  lemma NullKeyAccepted(stem: string)
    requires stem != "" && '/' !in stem
    ensures Validate(Archive([MANIFEST, ScriptName(stem)], Some(NullKeyed(stem))))
         == Accepted(Skills.Service, NullKeyed(stem))
  {
    var a := Archive([MANIFEST, ScriptName(stem)], Some(NullKeyed(stem)));
    NullKeyedParts(stem);
    PlainSafe(MANIFEST);
    ScriptSafe(stem, "script", stem + SCRIPT_EXT);
    ScriptsMatch({stem}, a.names);
    AcceptanceExact(a);
  }

  /** It is accepted as a service; enabling it raises with its container running, and its tool is missing. */
  lemma NullKeyExample(stem: string, mgr: Skills.Mgr, url: string)
    requires stem != "" && '/' !in stem
    ensures var m := NullKeyed(stem);
      && Validate(Archive([MANIFEST, ScriptName(stem)], Some(m))) == Accepted(Skills.Service, m)
      && AllTools(ToolsOf(m))
      && var skill, outcome := SkillOf(m, Skills.Service), Skills.Succeeds(None, url);
         && Skills.Raises(skill, outcome)
         && m.name in Skills.Enabled(mgr, skill, outcome).containers
         && ToolName(Skills.SKILL, m.name, stem) !in Skills.Enabled(mgr, skill, outcome).tools
  {
    var m := NullKeyed(stem);
    NullKeyAccepted(stem);
    NullKeyedParts(stem);
    SomeNull(ToolsOf(m));
    EarlyRegistered(ToolsOf(m), stem);
    EnabledTool(mgr, SkillOf(m, Skills.Service), None, url, stem);
  }

  /** A package whose `tools` key has no value: accepted as knowledge, and enabling it raises with its caches filled. */
  lemma NullToolsExample(mgr: Skills.Mgr, body: string)
    ensures var m := Metadata("greet", "1", "says hello", NullTools);
      && Validate(Archive([MANIFEST], Some(m))) == Accepted(Skills.Knowledge, m)
      && var skill, outcome := SkillOf(m, Skills.Knowledge), Skills.Succeeds(Some(body), "");
         && Skills.Raises(skill, outcome)
         && m.name in Skills.Enabled(mgr, skill, outcome).content
         && m.name in Skills.Enabled(mgr, skill, outcome).descriptions
  {
    NullToolsAccepted(Metadata("greet", "1", "says hello", NullTools));
  }

  lemma NullToolsAccepted(m: Metadata)
    requires GoodManifest(m) && m.tools.NullTools?
    ensures Validate(Archive([MANIFEST], Some(m))) == Accepted(Skills.Knowledge, m)
  {
    PlainSafe(MANIFEST);
    assert !IsScript(MANIFEST) by { assert MANIFEST[0] != SCRIPT_DIR[0]; }
    NothingDeclared(m, [MANIFEST]);
    ScriptsMatch({}, [MANIFEST]);
    AcceptanceExact(Archive([MANIFEST], Some(m)));
  }
}
