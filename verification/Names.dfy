/**
 The flat namespace of the tool registry. Tools of an MCP server or a skill are found only by the prefix of their name,
 so everything depends on when one owner's prefix can match another owner's tools.
 */
module Names {

  const SEP := "__"

  /** `<kind>__<owner>__`, the prefix of every tool name of `owner`. */
  function Prefix(kind: string, owner: string): string {
    kind + SEP + owner + SEP
  }

  function ToolName(kind: string, owner: string, tool: string): string {
    Prefix(kind, owner) + tool
  }

  predicate StartsWith(s: string, p: string) {
    p <= s
  }

  /** Neither owner's prefix is a prefix of the other's. */
  predicate PrefixFree(s: string, t: string) {
    !(s + SEP <= t + SEP) && !(t + SEP <= s + SEP)
  }

  predicate SepAt(s: string, i: nat) {
    i + 2 <= |s| && s[i] == '_' && s[i + 1] == '_'
  }

  predicate HasSep(s: string) {
    exists i: nat | i < |s| :: SepAt(s, i)
  }

  /** A name that cannot blur its own end: no separator inside and no underscore before the one that follows. */
  predicate SeparatorSafe(s: string) {
    !HasSep(s) && (s != "" ==> s[|s| - 1] != '_')
  }

  /** Two prefixes of the same string are comparable. */
  lemma PrefixesOfOne(p: string, q: string, s: string)
    requires p <= s && q <= s
    ensures p <= q || q <= p
  {
    if |p| <= |q| {
      assert q[..|p|] == s[..|p|] == p;
    } else {
      assert p[..|q|] == s[..|q|] == q;
    }
  }

  lemma AddFront(k: string, x: string, y: string)
    ensures k + x <= k + y <==> x <= y
  {
    if |x| <= |y| {
      assert (k + y)[..|k + x|] == k + y[..|x|];
      assert (k + x)[|k|..] == x && (k + y[..|x|])[|k|..] == y[..|x|];
    }
  }

  lemma PrefixCancel(kind: string, s: string, t: string)
    ensures Prefix(kind, s) <= Prefix(kind, t) <==> s + SEP <= t + SEP
  {
    var k := kind + SEP;
    assert Prefix(kind, s) == k + (s + SEP) && Prefix(kind, t) == k + (t + SEP);
    AddFront(k, s + SEP, t + SEP);
  }

  /** Some tool of `t` starts with the prefix of `s`. */
  ghost predicate Reaches(kind: string, s: string, t: string) {
    exists tool: string :: StartsWith(ToolName(kind, t, tool), Prefix(kind, s))
  }

  /** Exactly when no prefix of one owner matches a tool of another. */
  lemma PrefixFreeExact(kind: string, s: string, t: string)
    ensures PrefixFree(s, t) <==> !Reaches(kind, s, t) && !Reaches(kind, t, s)
  {
    PrefixCancel(kind, s, t);
    PrefixCancel(kind, t, s);
    ReachesIfComparable(kind, s, t);
    ReachesIfComparable(kind, t, s);
  }

  lemma ReachesIfComparable(kind: string, s: string, t: string)
    ensures Reaches(kind, s, t) <==> (Prefix(kind, s) <= Prefix(kind, t) || Prefix(kind, t) <= Prefix(kind, s))
  {
    var p, q := Prefix(kind, s), Prefix(kind, t);
    if Reaches(kind, s, t) {
      var tool: string :| StartsWith(ToolName(kind, t, tool), p);
      PrefixesOfOne(p, q, ToolName(kind, t, tool));
    }
    if p <= q {
      assert q + "" == q;
      assert StartsWith(ToolName(kind, t, ""), p);
    } else if q <= p {
      assert q + p[|q|..] == p;
      assert StartsWith(ToolName(kind, t, p[|q|..]), p);
    }
  }

  /** Separator-safe names are prefix-free, which the repository does not enforce. */
  lemma SafeNamesArePrefixFree(s: string, t: string)
    requires SeparatorSafe(s) && SeparatorSafe(t) && s != t
    ensures PrefixFree(s, t)
  {
    if s + SEP <= t + SEP {
      PrefixIsUnsafe(s, t);
    } else if t + SEP <= s + SEP {
      PrefixIsUnsafe(t, s);
    }
  }

  lemma PrefixIsUnsafe(s: string, t: string)
    requires s + SEP <= t + SEP && s != t
    ensures !SeparatorSafe(t)
  {
    var x := t + SEP;
    assert x[..|s| + 2] == s + SEP;
    assert x[|s|] == (s + SEP)[|s|] == '_' && x[|s| + 1] == (s + SEP)[|s| + 1] == '_';
    assert x[..|s|] == s && x[..|t|] == t;
    if |s| + 2 <= |t| {
      assert SepAt(t, |s|);
    }
  }

  /** The names `a` and `a__b` are not: the tool `t` of the second lies under the prefix of the first. */
  lemma UnsafeNamesExample()
    ensures !PrefixFree("a", "a__b") && StartsWith(ToolName("mcp", "a__b", "t"), Prefix("mcp", "a"))
  {
    assert "a" + SEP == "a__" && "a__b" + SEP == "a__b__";
    assert "a__b__"[..3] == "a__";
    assert Prefix("mcp", "a") == "mcp__a__" && ToolName("mcp", "a__b", "t") == "mcp__a__b__t";
    assert "mcp__a__b__t"[..8] == "mcp__a__";
  }

  lemma ToolNamesInjective(kind: string, s: string, t: string, x: string, y: string)
    requires s != t ==> PrefixFree(s, t)
    requires ToolName(kind, s, x) == ToolName(kind, t, y)
    ensures s == t && x == y
  {
    var n := ToolName(kind, s, x);
    PrefixesOfOne(Prefix(kind, s), Prefix(kind, t), n);
    PrefixCancel(kind, s, t);
    PrefixCancel(kind, t, s);
    assert s == t;
    assert x == n[|Prefix(kind, s)|..];
  }

  ghost predicate PairwisePrefixFree(owners: set<string>) {
    forall s, t | s in owners && t in owners && s != t :: PrefixFree(s, t)
  }

  lemma ForeignTool(kind: string, s: string, t: string, tool: string)
    requires PrefixFree(s, t)
    ensures !StartsWith(ToolName(kind, t, tool), Prefix(kind, s))
  {
    PrefixFreeExact(kind, s, t);
    assert !Reaches(kind, s, t);
  }
}
