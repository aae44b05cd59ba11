/** The order of the sorted set, whatever the timestamps: by score, then by the text, with the oldest cut off first. */
module ShortTermOrder {
  import opened ShortTerm
  import opened MemoryRuns

  /** The first difference decides, and a text that ends first comes first. */
  ghost predicate Differ(a: string, b: string, k: nat) {
    k <= |a| && k < |b| && a[..k] == b[..k] && (k == |a| || a[k] < b[k])
  }

  lemma {:induction false} TextBeforeExact(a: string, b: string)
    ensures TextBefore(a, b) <==> exists k: nat :: Differ(a, b, k)
  {
    if a == "" || b == "" {
      if b != "" { assert Differ(a, b, 0); }
    } else {
      TextBeforeExact(a[1..], b[1..]);
      if a[0] < b[0] { assert Differ(a, b, 0); }
      if k: nat :| Differ(a[1..], b[1..], k) {
        if a[0] == b[0] { DifferLater(a, b, k); }
      }
      if k: nat :| Differ(a, b, k) {
        if k > 0 {
          assert a[..k][0] == b[..k][0];
          DifferLater(a, b, k - 1);
        }
      }
    }
  }

  lemma DifferLater(a: string, b: string, k: nat)
    requires a != "" && b != "" && a[0] == b[0]
    ensures Differ(a, b, k + 1) <==> Differ(a[1..], b[1..], k)
  {
    if k + 1 <= |a| && k + 1 < |b| {
      assert a[..k + 1] == [a[0]] + a[1..][..k] && b[..k + 1] == [b[0]] + b[1..][..k];
      assert a[..k + 1][1..] == a[1..][..k] && b[..k + 1][1..] == b[1..][..k];
    }
  }

  lemma {:induction false} TextTotal(a: string, b: string)
    ensures !(TextBefore(a, b) && TextBefore(b, a))
    ensures a == b <==> !TextBefore(a, b) && !TextBefore(b, a)
  {
    if a != "" && b != "" {
      TextTotal(a[1..], b[1..]);
      assert a == [a[0]] + a[1..] && b == [b[0]] + b[1..];
    }
  }

  lemma {:induction false} TextThrough(a: string, b: string, c: string)
    requires TextBefore(a, b) && TextBefore(b, c)
    ensures TextBefore(a, c)
  {
    if a != "" && a[0] == b[0] && b[0] == c[0] { TextThrough(a[1..], b[1..], c[1..]); }
  }

  /** A strict total order. */
  lemma BeforeTotal(a: Msg, b: Msg, c: Msg)
    ensures !(Before(a, b) && Before(b, a))
    ensures a == b <==> !Before(a, b) && !Before(b, a)
    ensures Before(a, b) && Before(b, c) ==> Before(a, c)
  {
    TextTotal(a.text, b.text);
    if TextBefore(a.text, b.text) && TextBefore(b.text, c.text) { TextThrough(a.text, b.text, c.text); }
  }

  predicate Ordered(z: seq<Msg>) {
    forall i, j | 0 <= i < j < |z| :: Before(z[i], z[j])
  }

  lemma {:induction false} InsertOrdered(z: seq<Msg>, m: Msg)
    requires Ordered(z) && m !in z
    ensures var r := Insert(z, m);
      Ordered(r) && |r| == |z| + 1 && forall x :: x in r <==> x in z || x == m
  {
    if z == [] {
    } else {
      var n := |z| - 1;
      var last := z[n];
      assert z == z[..n] + [last] && last in z;
      BeforeTotal(last, m, m);
      if Before(last, m) {
        forall i | 0 <= i < n ensures Before(z[i], m) { BeforeTotal(z[i], last, m); }
      } else {
        InsertOrdered(z[..n], m);
        var r := Insert(z[..n], m);
        forall i | 0 <= i < |r| ensures Before(r[i], last) {
          assert r[i] in r;
          if r[i] in z[..n] { assert exists k :: 0 <= k < n && z[k] == r[i]; }
        }
      }
    }
  }

  lemma TrimExact(all: seq<Msg>, window: nat)
    requires Ordered(all)
    ensures var r := Trim(all, window);
      && Ordered(r) && |r| <= window && (forall x | x in r :: x in all)
      && (forall x | x in all && x !in r :: |r| == window && forall y | y in r :: Before(x, y))
  {
    var r := Trim(all, window);
    var d := |all| - |r|;
    assert r == all[d..];
    forall x, y | x in all && x !in r && y in r ensures Before(x, y) {
      var i :| 0 <= i < |all| && all[i] == x;
      var j :| 0 <= j < |r| && r[j] == y;
      assert forall k | d <= k < |all| :: all[k] == r[k - d];
      assert y == all[d + j];
    }
  }

  /**
   What one addition leaves, for any timestamps: the set stays ordered without duplicates, holds only its members and
   the new one, and leaves one of them out only when the window is full of later ones.
   */
  lemma AddedExact(c: Config, z: seq<Msg>, m: Msg)
    requires Ordered(z)
    ensures var r := Added(c, z, m);
      && Ordered(r) && |r| <= c.window
      && (forall x | x in r :: x in z || x == m)
      && (forall x | (x in z || x == m) && x !in r :: |r| == c.window && forall y | y in r :: Before(x, y))
  {
    if m !in z { InsertOrdered(z, m); }
    TrimExact(ZAdd(z, m), c.window);
  }

  /** On every interleaving whatsoever. */
  lemma {:induction false} RunOrdered(c: Config, steps: seq<Step>)
    ensures var z := Exec(c, START, steps).z; Ordered(z) && |z| <= c.window
  {
    if steps == [] {
    } else {
      var n := |steps| - 1;
      var w := Exec(c, START, steps[..n]);
      RunOrdered(c, steps[..n]);
      if steps[n].Add? { AddedExact(c, w.z, steps[n].m); }
    }
  }
}
