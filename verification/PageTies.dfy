/**
 Rows with equal creation times, under the comparison as Python evaluates it: what a page boundary inside a tie loses,
 and when a whole walk over unchanging rows loses nothing.
 */
module PageTies {
  import opened Common
  import opened Pagination

  // ---- one page ----

  /** The first `limit` rows, the one after them, and the rest of the query. */
  lemma Boundary(all: set<Row>, limit: nat)
    requires KeyedById(all) && 1 <= limit < |all|
    ensures var found := Top(all, limit + 1);
      && |found| == limit + 1 && found[limit] in all && found[limit] !in found[..limit]
      && (forall r | r in all && r !in found[..limit] ::
            r.createdAt <= found[limit].createdAt <= found[limit - 1].createdAt)
  {
    TopIs(all, limit + 1);
  }

  lemma NoOlder(s: seq<Row>, n: nat)
    requires Descending(s) && 1 <= n <= |s|
    ensures forall r | r in s[..n] :: r.createdAt >= s[n - 1].createdAt
  {
    forall r | r in s[..n] ensures r.createdAt >= s[n - 1].createdAt {
      var i :| 0 <= i < n && s[..n][i] == r;
      assert i < n - 1 ==> Above(s[i], s[n - 1]);
    }
  }

  /**
   In any database: reading the comparison as Python evaluates it, a page loses the rows that share the creation time of
   its last row but did not fit on it. So nothing is lost exactly when the first row left over is strictly older.
   */
  lemma TiesAtBoundary(db: set<Row>, user: nat, c: Option<Cursor>, limit: nat)
    requires KeyedById(db) && limit >= 1 && Page(db, user, FirstComponent, c, limit).1
    ensures var (items, _) := Page(db, user, FirstComponent, c, limit);
      var last := items[limit - 1];
      var left := Matching(db, user, FirstComponent, c) - set r | r in items;
      var seen := Matching(db, user, FirstComponent, Some(Cursor(last.createdAt, last.id)));
      && seen <= left
      && left - seen == (set r | r in left && r.createdAt == last.createdAt)
      && (seen == left <==>
            Top(Matching(db, user, FirstComponent, c), limit + 1)[limit].createdAt < last.createdAt)
  {
    PageIs(db, user, FirstComponent, c, limit);
    var all := Matching(db, user, FirstComponent, c);
    Boundary(all, limit);
    TopIs(all, limit + 1);
    NoOlder(Top(all, limit + 1), limit);
    var items, next := Top(all, limit + 1)[..limit], Top(all, limit + 1)[limit];
    var last := items[limit - 1];
    assert last in items;
    var left := all - set r | r in items;
    var seen := Matching(db, user, FirstComponent, Some(Cursor(last.createdAt, last.id)));
    assert forall r | r in left :: r.createdAt <= last.createdAt;
    assert forall r :: r in seen <==> r in left && r.createdAt < last.createdAt;
    assert next in left;
  }

  lemma TwoRowTable(late: Row, early: Row)
    requires Above(late, early) && late.id != early.id
    ensures KeyedById({late, early}) && Top({late, early}, 2) == [late, early]
  {
    var rows := {late, early};
    TopIs(rows, 2);
    var t := Top(rows, 2);
    assert t[0] in t && t[1] in t && Above(t[0], t[1]);
    assert t == [t[0], t[1]];
  }

  /** Two conversations of one moment and a page size of one: the second is on no page. */
  lemma TiesExample()
    ensures var late, early := Row(2, 0, 100, false), Row(1, 0, 100, false);
      var db := {late, early};
      && KeyedById(db)
      && Page(db, 0, FirstComponent, None, 1) == ([late], true)
      && Page(db, 0, FirstComponent, Some(Cursor(late.createdAt, late.id)), 1) == ([], false)
      && Page(db, 0, RowComparison, Some(Cursor(late.createdAt, late.id)), 1) == ([early], false)
  {
    var late, early := Row(2, 0, 100, false), Row(1, 0, 100, false);
    var db := {late, early};
    var c := Some(Cursor(late.createdAt, late.id));
    TwoRowTable(late, early);
    assert Matching(db, 0, FirstComponent, None) == db;
    assert [late, early][..1] == [late];
    assert Matching(db, 0, FirstComponent, c) == {};
    assert Matching(db, 0, RowComparison, c) == {early};
    TopIs({early}, 2);
    assert Top({early}, 2) == [early] by { assert Top({early}, 2)[0] in Top({early}, 2); }
  }

  // ---- a whole walk ----

  function RowsOf(s: seq<Row>): set<Row> {
    set r | r in s
  }

  /** All matching rows in query order. */
  ghost function Sorted(rows: set<Row>): seq<Row>
    requires KeyedById(rows)
  {
    Top(rows, |rows|)
  }

  /** If a page of the list starts at `i`, the row before it is strictly newer. */
  predicate CutAt(s: seq<Row>, i: nat, limit: nat)
    requires limit >= 1 && 0 < i < |s|
  {
    i % limit == 0 ==> s[i].createdAt < s[i - 1].createdAt
  }

  /** No page boundary of the list stands between two rows of one creation time. */
  predicate CleanCuts(s: seq<Row>, limit: nat)
    requires limit >= 1
  {
    forall i: nat | 0 < i < |s| :: CutAt(s, i, limit)
  }

  lemma AtLeastOnce(d: int, limit: nat)
    requires d >= 1
    ensures d * limit >= limit
  {
    assert d * limit == (d - 1) * limit + limit;
  }

  lemma ModUnique(limit: nat, q: int, r: int, p: int, t: int)
    requires limit >= 1 && 0 <= r < limit && 0 <= t < limit && q * limit + r == p * limit + t
    ensures r == t
  {
    assert (q - p) * limit == t - r && (p - q) * limit == r - t;
    if q > p {
      AtLeastOnce(q - p, limit);
    } else if q < p {
      AtLeastOnce(p - q, limit);
    }
  }

  lemma ModShift(i: nat, limit: nat)
    requires limit >= 1
    ensures (i + limit) % limit == i % limit
  {
    var j := i + limit;
    assert (i / limit + 1) * limit == i / limit * limit + limit;
    ModUnique(limit, i / limit + 1, i % limit, j / limit, j % limit);
  }

  lemma CutShift(s: seq<Row>, i: nat, limit: nat)
    requires limit >= 1 && 0 < i && i + limit < |s|
    ensures CutAt(s, i + limit, limit) <==> CutAt(s[limit..], i, limit)
  {
    ModShift(i, limit);
  }

  lemma FirstCut(s: seq<Row>, limit: nat)
    requires 1 <= limit < |s|
    ensures CutAt(s, limit, limit) <==> s[limit].createdAt < s[limit - 1].createdAt
    ensures forall i | 0 < i < limit :: CutAt(s, i, limit)
  {
    ModShift(0, limit);
  }

  lemma CutsStep(s: seq<Row>, limit: nat)
    requires 1 <= limit < |s|
    ensures CleanCuts(s, limit) <==> s[limit].createdAt < s[limit - 1].createdAt && CleanCuts(s[limit..], limit)
  {
    var rest := s[limit..];
    FirstCut(s, limit);
    if CleanCuts(s, limit) {
      forall i | 0 < i < |rest| ensures CutAt(rest, i, limit) { CutShift(s, i, limit); }
    }
    if CleanCuts(rest, limit) && CutAt(s, limit, limit) {
      forall i | limit < i < |s| ensures CutAt(s, i, limit) { CutShift(s, i - limit, limit); }
    }
  }

  lemma TopUnfold(rows: set<Row>, n: nat, m: nat)
    requires KeyedById(rows) && rows != {} && 0 < n && 0 < m
    ensures var s, t := Top(rows, n), Top(rows, m);
      s != [] && t != [] && s[0] == t[0] && s[0] in rows && s[1..] == Top(rows - {s[0]}, n - 1)
  {
  }

  /** Fewer rows of a query are a prefix of it. */
  lemma {:induction false} TopPrefix(rows: set<Row>, n: nat, m: nat)
    requires KeyedById(rows) && n <= m && n <= |rows|
    ensures |Top(rows, n)| == n && Top(rows, n) <= Top(rows, m)
  {
    if n > 0 {
      TopUnfold(rows, n, m);
      TopUnfold(rows, m, n);
      TopPrefix(rows - {Top(rows, n)[0]}, n - 1, m - 1);
    }
  }

  lemma NoRows(s: seq<Row>)
    ensures RowsOf(s) == {} <==> s == []
  {
    if s != [] { assert s[0] in RowsOf(s); }
  }

  lemma HighestFirst(s: seq<Row>, r: Row)
    requires Descending(s) && r in s
    ensures r == s[0] || Above(s[0], r)
  {
  }

  /** A list in query order is determined by its rows. */
  lemma {:induction false} SameRows(s: seq<Row>, t: seq<Row>)
    requires Descending(s) && Descending(t) && RowsOf(s) == RowsOf(t)
    ensures s == t
  {
    NoRows(s);
    NoRows(t);
    if s != [] {
      assert s[0] in RowsOf(t) && t[0] in RowsOf(s);
      HighestFirst(s, t[0]);
      HighestFirst(t, s[0]);
      WithoutFirst(s);
      WithoutFirst(t);
      SameRows(s[1..], t[1..]);
    }
  }

  lemma WithoutFirst(s: seq<Row>)
    requires s != [] && Descending(s)
    ensures RowsOf(s[1..]) == RowsOf(s) - {s[0]} && Descending(s[1..])
  {
    forall i | 0 <= i < |s[1..]| ensures s[1..][i] != s[0] { assert Above(s[0], s[i + 1]); }
    assert s == [s[0]] + s[1..];
  }

  lemma RowsSplit(s: seq<Row>, n: nat)
    requires Descending(s) && n <= |s|
    ensures RowsOf(s[n..]) == RowsOf(s) - RowsOf(s[..n]) && Descending(s[n..])
  {
    assert s == s[..n] + s[n..];
    forall i, j | 0 <= i < n <= j < |s| ensures s[i] != s[j] { assert Above(s[i], s[j]); }
  }

  /** Sorting neither adds nor loses rows. */
  lemma SortedRows(rows: set<Row>)
    requires KeyedById(rows)
    ensures var s := Sorted(rows); |s| == |rows| && Descending(s) && RowsOf(s) == rows
  {
    TopIs(rows, |rows|);
    WholeTop(rows, Sorted(rows));
  }

  /** A query with a limit returns the front of the whole list. */
  lemma TopFront(rows: set<Row>, n: nat)
    requires KeyedById(rows)
    ensures |Sorted(rows)| == |rows| && Top(rows, n) == Sorted(rows)[..if n <= |rows| then n else |rows|]
  {
    TopIs(rows, |rows|);
    if n <= |rows| {
      TopPrefix(rows, n, |rows|);
    } else {
      TopIs(rows, n);
      TopPrefix(rows, |rows|, n);
    }
  }

  /** A further page matches fewer rows: at least the last one taken is gone. */
  lemma PageShrinks(db: set<Row>, user: nat, c: Option<Cursor>, limit: nat)
    requires KeyedById(db) && limit >= 1 && Page(db, user, FirstComponent, c, limit).1
    ensures var items := Page(db, user, FirstComponent, c, limit).0;
      |items| == limit && |Matching(db, user, FirstComponent, CursorAfter(items))|
                          < |Matching(db, user, FirstComponent, c)|
  {
    PageIs(db, user, FirstComponent, c, limit);
    var items := Page(db, user, FirstComponent, c, limit).0;
    var last := items[limit - 1];
    assert last in items;
    var all, next := Matching(db, user, FirstComponent, c), Matching(db, user, FirstComponent, CursorAfter(items));
    assert next <= all - {last};
    Subset(next, all - {last});
  }

  function CursorAfter(items: seq<Row>): Option<Cursor>
    requires items != []
  {
    var last := items[|items| - 1];
    Some(Cursor(last.createdAt, last.id))
  }

  /** The rows a client collects, from the cursor `c` to the last page. */
  ghost function Collected(db: set<Row>, user: nat, c: Option<Cursor>, limit: nat): seq<Row>
    requires KeyedById(db) && limit >= 1
    decreases |Matching(db, user, FirstComponent, c)|
  {
    var (items, more) := Page(db, user, FirstComponent, c, limit);
    if !more then items
    else
      PageShrinks(db, user, c, limit);
      items + Collected(db, user, CursorAfter(items), limit)
  }

  lemma {:induction false} CollectedMatches(db: set<Row>, user: nat, c: Option<Cursor>, limit: nat)
    requires KeyedById(db) && limit >= 1
    ensures forall r | r in Collected(db, user, c, limit) :: r in Matching(db, user, FirstComponent, c)
    decreases |Matching(db, user, FirstComponent, c)|
  {
    PageIs(db, user, FirstComponent, c, limit);
    var (items, more) := Page(db, user, FirstComponent, c, limit);
    if more {
      PageShrinks(db, user, c, limit);
      CollectedMatches(db, user, CursorAfter(items), limit);
      assert items[limit - 1] in items;
    }
  }

  /** The page is the front of the whole list, and all of it if there is no further page. */
  lemma PageFront(db: set<Row>, user: nat, c: Option<Cursor>, limit: nat)
    requires KeyedById(db) && limit >= 1
    ensures var (items, more) := Page(db, user, FirstComponent, c, limit);
      var s := Sorted(Matching(db, user, FirstComponent, c));
      && (more <==> |s| > limit) && items == (if more then s[..limit] else s)
  {
    TopFront(Matching(db, user, FirstComponent, c), limit + 1);
  }

  lemma SortedRest(all: set<Row>, limit: nat)
    requires KeyedById(all) && limit <= |all|
    ensures |Sorted(all)| == |all| && Sorted(all - RowsOf(Sorted(all)[..limit])) == Sorted(all)[limit..]
  {
    var s := Sorted(all);
    SortedRows(all);
    RowsSplit(s, limit);
    SortedRows(all - RowsOf(s[..limit]));
    SameRows(Sorted(all - RowsOf(s[..limit])), s[limit..]);
  }

  /** The rows left for the later pages, in order, if the boundary is clean; otherwise the next row is none of them. */
  lemma NextRest(db: set<Row>, user: nat, c: Option<Cursor>, limit: nat)
    requires KeyedById(db) && limit >= 1 && Page(db, user, FirstComponent, c, limit).1
    ensures var items := Page(db, user, FirstComponent, c, limit).0;
      var s := Sorted(Matching(db, user, FirstComponent, c));
      var next := Matching(db, user, FirstComponent, CursorAfter(items));
      && |s| > limit && items == s[..limit]
      && if s[limit].createdAt < s[limit - 1].createdAt then Sorted(next) == s[limit..] else s[limit] !in next
  {
    var all := Matching(db, user, FirstComponent, c);
    PageIs(db, user, FirstComponent, c, limit);
    TopFront(all, limit + 1);
    SortedRest(all, limit);
    TiesAtBoundary(db, user, c, limit);
    var items := Page(db, user, FirstComponent, c, limit).0;
    if Sorted(all)[limit].createdAt < Sorted(all)[limit - 1].createdAt {
      assert Matching(db, user, FirstComponent, CursorAfter(items)) == all - RowsOf(items);
    }
  }

  lemma LaterRow(s: seq<Row>, n: nat, i: nat)
    requires Descending(s) && n <= i < |s|
    ensures s[i] in s && s[i] !in s[..n]
  {
  }

  lemma MissedLater(s: seq<Row>, limit: nat, later: seq<Row>, r: Row)
    requires Descending(s) && limit < |s| && r in s[limit..] && r !in later
    ensures r in s && r !in s[..limit] + later
  {
    var i :| 0 <= i < |s[limit..]| && s[limit..][i] == r;
    LaterRow(s, limit, limit + i);
  }

  lemma SmallCuts(s: seq<Row>, limit: nat)
    requires limit >= 1 && |s| <= limit
    ensures CleanCuts(s, limit)
  {
  }

  /** The first boundary is clean, and what is said of the later pages holds of all. */
  lemma CollectedOn(s: seq<Row>, limit: nat, later: seq<Row>)
    requires 1 <= limit < |s| && Descending(s) && s[limit].createdAt < s[limit - 1].createdAt
    requires ExactOrMissing(s[limit..], later, limit)
    ensures ExactOrMissing(s, s[..limit] + later, limit)
  {
    CutsStep(s, limit);
    if CleanCuts(s, limit) {
      assert s == s[..limit] + s[limit..];
    } else {
      var r :| r in s[limit..] && r !in later;
      MissedLater(s, limit, later, r);
    }
  }

  ghost predicate ExactOrMissing(s: seq<Row>, got: seq<Row>, limit: nat)
    requires limit >= 1
  {
    if CleanCuts(s, limit) then got == s else exists r :: r in s && r !in got
  }

  lemma LastPage(db: set<Row>, user: nat, c: Option<Cursor>, limit: nat)
    requires KeyedById(db) && limit >= 1 && !Page(db, user, FirstComponent, c, limit).1
    ensures ExactOrMissing(Sorted(Matching(db, user, FirstComponent, c)), Collected(db, user, c, limit), limit)
  {
    PageFront(db, user, c, limit);
    SmallCuts(Sorted(Matching(db, user, FirstComponent, c)), limit);
  }

  lemma MissedAtTie(s: seq<Row>, limit: nat, later: seq<Row>)
    requires 1 <= limit < |s| && Descending(s) && s[limit].createdAt >= s[limit - 1].createdAt && s[limit] !in later
    ensures ExactOrMissing(s, s[..limit] + later, limit)
  {
    CutsStep(s, limit);
    LaterRow(s, limit, limit);
  }

  /** The rows collected are all the rows of the query, in order, or some row is missing at a boundary inside a tie. */
  lemma {:induction false} CollectedExact(db: set<Row>, user: nat, c: Option<Cursor>, limit: nat)
    requires KeyedById(db) && limit >= 1
    ensures ExactOrMissing(Sorted(Matching(db, user, FirstComponent, c)), Collected(db, user, c, limit), limit)
    decreases |Matching(db, user, FirstComponent, c)|
  {
    if Page(db, user, FirstComponent, c, limit).1 {
      var all := Matching(db, user, FirstComponent, c);
      var s, next := Sorted(all), CursorAfter(Page(db, user, FirstComponent, c, limit).0);
      PageShrinks(db, user, c, limit);
      NextRest(db, user, c, limit);
      TopIs(all, |all|);
      CollectedExact(db, user, next, limit);
      var later := Collected(db, user, next, limit);
      CollectedMatches(db, user, next, limit);
      if s[limit].createdAt < s[limit - 1].createdAt {
        CollectedOn(s, limit, later);
      } else {
        MissedAtTie(s, limit, later);
      }
    } else {
      LastPage(db, user, c, limit);
    }
  }

  // ---- the walk of a client ----

  function Pages(n: nat): seq<Step> {
    seq(n, _ => NextPage)
  }

  /** Between two pages the rest of the walk is what the cursor leads to. */
  lemma {:induction false} WalkCollects(q: Query, w: Walk, n: nat)
    requires KeyedById(w.db) && q.limit >= 1 && q.reading == FirstComponent
    requires w.cursor == None && w.got == [] && !w.done
    ensures var v := Exec(q, w, Pages(n));
      && v.db == w.db
      && v.got + (if v.done then [] else Collected(w.db, q.user, v.cursor, q.limit))
         == Collected(w.db, q.user, None, q.limit)
  {
    if n == 0 {
    } else {
      WalkCollects(q, w, n - 1);
      assert Pages(n)[..n - 1] == Pages(n - 1);
      NextCollects(q, Exec(q, w, Pages(n - 1)));
    }
  }

  lemma NextCollects(q: Query, v: Walk)
    requires KeyedById(v.db) && q.limit >= 1 && q.reading == FirstComponent
    ensures var u := Apply(q, v, NextPage);
      && u.db == v.db
      && u.got + (if u.done then [] else Collected(v.db, q.user, u.cursor, q.limit))
         == v.got + (if v.done then [] else Collected(v.db, q.user, v.cursor, q.limit))
  {
    if !v.done { PageCollects(q, v, Page(v.db, q.user, FirstComponent, v.cursor, q.limit)); }
  }

  lemma PageCollects(q: Query, v: Walk, page: (seq<Row>, bool))
    requires KeyedById(v.db) && q.limit >= 1 && q.reading == FirstComponent && !v.done
    requires page == Page(v.db, q.user, FirstComponent, v.cursor, q.limit)
    ensures var u := Apply(q, v, NextPage);
      u.got + (if u.done then [] else Collected(v.db, q.user, u.cursor, q.limit))
      == v.got + Collected(v.db, q.user, v.cursor, q.limit)
  {
    if page.1 {
      PageShrinks(v.db, q.user, v.cursor, q.limit);
      Assoc(v.got, page.0, Collected(v.db, q.user, CursorAfter(page.0), q.limit));
    } else {
      assert v.got + page.0 + [] == v.got + page.0;
    }
  }

  lemma {:induction false} WalkShrinks(q: Query, w: Walk, n: nat)
    requires KeyedById(w.db) && q.limit >= 1 && q.reading == FirstComponent && !w.done
    ensures var v := Exec(q, w, Pages(n));
      && v.db == w.db
      && (v.done || |Matching(w.db, q.user, FirstComponent, v.cursor)| + n
                    <= |Matching(w.db, q.user, FirstComponent, w.cursor)|)
  {
    if n > 0 {
      WalkShrinks(q, w, n - 1);
      assert Pages(n)[..n - 1] == Pages(n - 1);
      var v := Exec(q, w, Pages(n - 1));
      if !v.done { NextShrinks(q, v); }
    }
  }

  lemma NextShrinks(q: Query, v: Walk)
    requires KeyedById(v.db) && q.limit >= 1 && q.reading == FirstComponent && !v.done
    ensures var u := Apply(q, v, NextPage);
      && u.db == v.db
      && (u.done || |Matching(v.db, q.user, FirstComponent, u.cursor)|
                    < |Matching(v.db, q.user, FirstComponent, v.cursor)|)
  {
    if Page(v.db, q.user, FirstComponent, v.cursor, q.limit).1 { PageShrinks(v.db, q.user, v.cursor, q.limit); }
  }

  /** Ties or not, the walk ends. */
  lemma WalkEnds(q: Query, w: Walk)
    requires KeyedById(w.db) && q.limit >= 1 && q.reading == FirstComponent && !w.done
    ensures Exec(q, w, Pages(|Matching(w.db, q.user, FirstComponent, w.cursor)| + 1)).done
  {
    WalkShrinks(q, w, |Matching(w.db, q.user, FirstComponent, w.cursor)| + 1);
  }

  /**
   A finished walk over rows that do not change, as Python evaluates the comparison: it returns all the rows of the user
   in order if and only if no two rows of one creation time stand on either side of a page boundary; otherwise a row is
   on no page.
   */
  lemma WalkExact(q: Query, w: Walk, n: nat)
    requires KeyedById(w.db) && q.limit >= 1 && q.reading == FirstComponent
    requires w.cursor == None && w.got == [] && !w.done && Exec(q, w, Pages(n)).done
    ensures var s, got := Sorted(Matching(w.db, q.user, FirstComponent, None)), Exec(q, w, Pages(n)).got;
      && (got == s <==> CleanCuts(s, q.limit))
      && ((exists r :: r in s && r !in got) <==> !CleanCuts(s, q.limit))
  {
    WalkCollects(q, w, n);
    CollectedExact(w.db, q.user, None, q.limit);
    var got := Exec(q, w, Pages(n)).got;
    assert got + [] == got;
  }
}
