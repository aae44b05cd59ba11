/**
 Cursor pagination of conversations, newest first, while rows are created, archived and deleted. The tuple comparison in
 the query is evaluated by Python on two tuples of columns, which leaves only the comparison of the first components;
 the row comparison it spells is kept as the alternative reading.
 */
module Pagination {
  import opened Common

  datatype Row = Row(id: nat, user: nat, createdAt: int, archived: bool)

  datatype Cursor = Cursor(createdAt: int, id: nat)

  datatype Reading = FirstComponent | RowComparison

  /** Descending order of `(created_at, id)`. */
  predicate Above(a: Row, b: Row) {
    a.createdAt > b.createdAt || (a.createdAt == b.createdAt && a.id > b.id)
  }

  predicate Past(reading: Reading, r: Row, c: Option<Cursor>) {
    c.Some? ==>
      r.createdAt < c.value.createdAt
      || (reading == RowComparison && r.createdAt == c.value.createdAt && r.id < c.value.id)
  }

  function Matching(db: set<Row>, user: nat, reading: Reading, c: Option<Cursor>): set<Row> {
    set r | r in db && r.user == user && !r.archived && Past(reading, r, c)
  }

  /** Ids are primary keys. */
  predicate KeyedById(db: set<Row>) {
    forall a, b | a in db && b in db && a.id == b.id :: a == b
  }

  predicate IsFirst(m: Row, rows: set<Row>) {
    m in rows && forall r | r in rows && r != m :: Above(m, r)
  }

  lemma {:induction false} FirstExists(rows: set<Row>)
    requires rows != {} && KeyedById(rows)
    ensures exists m :: IsFirst(m, rows)
  {
    var x :| x in rows;
    if rows == {x} {
      assert IsFirst(x, rows);
    } else {
      var rest := rows - {x};
      assert x !in rest && rows == rest + {x};
      FirstExists(rest);
      var m :| IsFirst(m, rest);
      if Above(m, x) { assert IsFirst(m, rows); } else { assert IsFirst(x, rows); }
    }
  }

  /** The first `n` rows in query order. */
  ghost function Top(rows: set<Row>, n: nat): seq<Row>
    requires KeyedById(rows)
  {
    if n == 0 || rows == {} then []
    else
      FirstExists(rows);
      var m :| IsFirst(m, rows);
      [m] + Top(rows - {m}, n - 1)
  }

  predicate Descending(s: seq<Row>) {
    forall i, j | 0 <= i < j < |s| :: Above(s[i], s[j])
  }

  lemma {:induction false} TopIs(rows: set<Row>, n: nat)
    requires KeyedById(rows)
    ensures var t := Top(rows, n);
      && |t| == (if n <= |rows| then n else |rows|)
      && Descending(t)
      && (forall r | r in t :: r in rows)
      && (forall r, i | r in rows && r !in t && 0 <= i < |t| :: Above(t[i], r))
  {
    if n > 0 && rows != {} {
      var t := Top(rows, n);
      var m := t[0];
      assert IsFirst(m, rows);
      TopIs(rows - {m}, n - 1);
      assert t[1..] == Top(rows - {m}, n - 1);
      forall i, j | 0 <= i < j < |t| ensures Above(t[i], t[j]) {
        assert t[j] == t[1..][j - 1] && t[j] in t[1..];
        if i > 0 { assert t[i] == t[1..][i - 1]; }
      }
      forall r, i | r in rows && r !in t && 0 <= i < |t| ensures Above(t[i], r) {
        if i > 0 {
          assert t[i] == t[1..][i - 1];
          assert r !in t[1..];
        }
      }
    }
  }

  /** `list_for_user`: one row more than the page is fetched, to see whether there is another page. */
  ghost function Page(db: set<Row>, user: nat, reading: Reading, c: Option<Cursor>, limit: nat): (seq<Row>, bool)
    requires KeyedById(db)
  {
    var found := Top(Matching(db, user, reading, c), limit + 1);
    (if |found| <= limit then found else found[..limit], |found| > limit)
  }

  /** Every page takes the rows of the query in order and leaves rows below all of them. */
  lemma PageIs(db: set<Row>, user: nat, reading: Reading, c: Option<Cursor>, limit: nat)
    requires KeyedById(db)
    ensures var (items, more) := Page(db, user, reading, c, limit);
      var all := Matching(db, user, reading, c);
      && Descending(items) && |items| <= limit
      && (forall r | r in items :: r in all)
      && (more <==> |all| > limit) && (more ==> |items| == limit)
      && (!more ==> forall r | r in all :: r in items)
      && (forall r, i | r in all && r !in items && 0 <= i < |items| :: Above(items[i], r))
  {
    var all := Matching(db, user, reading, c);
    TopIs(all, limit + 1);
    var found := Top(all, limit + 1);
    if |found| > limit {
      CutTop(all, found, limit);
    } else {
      WholeTop(all, found);
    }
  }

  lemma CutTop(all: set<Row>, found: seq<Row>, limit: nat)
    requires |found| == limit + 1 && Descending(found)
    requires forall r, i | r in all && r !in found && 0 <= i < |found| :: Above(found[i], r)
    ensures Descending(found[..limit])
    ensures forall r, i | r in all && r !in found[..limit] && 0 <= i < limit :: Above(found[i], r)
  {
    assert found == found[..limit] + [found[limit]];
  }

  lemma WholeTop(all: set<Row>, found: seq<Row>)
    requires Descending(found) && (forall r | r in found :: r in all) && |found| >= |all|
    ensures forall r | r in all :: r in found
  {
    forall r | r in all && r !in found ensures false { MissingRow(all, found, r); }
  }

  lemma MissingRow(all: set<Row>, found: seq<Row>, r: Row)
    requires Descending(found) && (forall x | x in found :: x in all) && r in all && r !in found
    ensures |found| < |all|
  {
    var s := set x | x in found;
    SeqSize(found);
    assert s <= all - {r};
    Subset(s, all - {r});
  }

  lemma {:induction false} SeqSize(s: seq<Row>)
    requires Descending(s)
    ensures |set x | x in s| == |s|
  {
    if s == [] {
    } else {
      SeqSize(s[1..]);
      var rest := set x | x in s[1..];
      assert s[0] !in rest by {
        forall i | 0 <= i < |s[1..]| ensures s[1..][i] != s[0] { assert Above(s[0], s[i + 1]); }
      }
      assert (set x | x in s) == rest + {s[0]};
    }
  }

  lemma {:induction false} Subset(a: set<Row>, b: set<Row>)
    requires a <= b
    ensures |a| <= |b|
  {
    if a == {} {
    } else {
      var x :| x in a;
      Subset(a - {x}, b - {x});
    }
  }

  lemma FirstUnique(found: seq<Row>, rows: set<Row>, n: nat, m: Row)
    requires KeyedById(rows) && n > 0 && IsFirst(m, rows)
    ensures found + Top(rows, n) == found + [m] + Top(rows - {m}, n - 1)
  {
    var x := Top(rows, n)[0];
    assert IsFirst(x, rows);
    assert x == m;
    assert found + ([m] + Top(rows - {m}, n - 1)) == found + [m] + Top(rows - {m}, n - 1);
  }

  method TakeFirst(rows: set<Row>) returns (m: Row)
    requires rows != {} && KeyedById(rows)
    ensures IsFirst(m, rows)
  {
    FirstExists(rows);
    m :| m in rows && IsFirst(m, rows);
  }

  /** The query as a selection of the largest remaining row, `limit + 1` times, and the slicing of its result. */
  method ListForUser(db: set<Row>, user: nat, c: Option<Cursor>, limit: nat) returns (items: seq<Row>, hasMore: bool)
    requires KeyedById(db)
    ensures (items, hasMore) == Page(db, user, FirstComponent, c, limit)
  {
    var rest := Matching(db, user, FirstComponent, c);
    ghost var due := Top(rest, limit + 1);
    var found := [];
    while |found| < limit + 1 && rest != {}
      invariant KeyedById(rest) && |found| <= limit + 1
      invariant due == found + Top(rest, limit + 1 - |found|)
      decreases |rest|
    {
      var m := TakeFirst(rest);
      FirstUnique(found, rest, limit + 1 - |found|, m);
      found := found + [m];
      rest := rest - {m};
    }
    assert Top(rest, limit + 1 - |found|) == [] && found + [] == found;
    hasMore := |found| > limit;
    items := if |found| <= limit then found else found[..limit];
  }

  // ---- walking the pages while rows change ----

  /** `got` is what the client has collected; `clock` is at least every creation time of the user's rows so far. */
  datatype Walk = Walk(db: set<Row>, clock: int, cursor: Option<Cursor>, got: seq<Row>, done: bool)

  datatype Step =
    | Create(row: Row)
    | Archive(row: Row)
    | Delete(row: Row)
    | NextPage

  datatype Query = Query(user: nat, reading: Reading, limit: nat)

  /** A new row gets a new id, and one of the user a later creation time. */
  ghost function Apply(q: Query, w: Walk, step: Step): Walk
    requires KeyedById(w.db)
  {
    match step
    case Create(row) =>
      if exists r :: r in w.db && r.id == row.id then w
      else if row.user != q.user then w.(db := w.db + {row})
      else if row.createdAt <= w.clock then w
      else w.(db := w.db + {row}, clock := row.createdAt)
    case Archive(row) =>
      if row in w.db then w.(db := w.db - {row} + {row.(archived := true)}) else w
    case Delete(row) => w.(db := w.db - {row})
    case NextPage =>
      if w.done then w
      else
        var (items, more) := Page(w.db, q.user, q.reading, w.cursor, q.limit);
        if more && items != [] then
          var last := items[|items| - 1];
          w.(cursor := Some(Cursor(last.createdAt, last.id)), got := w.got + items)
        else w.(got := w.got + items, done := true)
  }

  /** Creation times identify a user's rows. */
  predicate DistinctTimes(db: set<Row>, user: nat) {
    forall a, b | a in db && b in db && a.user == user && b.user == user && a.createdAt == b.createdAt :: a == b
  }

  predicate Active(q: Query, r: Row) {
    r.user == q.user && !r.archived
  }

  predicate Lower(r: Row, c: Option<Cursor>) {
    c.Some? ==> r.createdAt < c.value.createdAt
  }

  /** What has been collected is in order and above the cursor, and nothing active is missed above the cursor. */
  ghost predicate Inv(q: Query, w: Walk, initial: set<Row>) {
    && KeyedById(w.db) && DistinctTimes(w.db, q.user)
    && (forall r | r in w.db && r.user == q.user :: r.createdAt <= w.clock)
    && (w.cursor.Some? ==>
          && w.cursor.value.createdAt <= w.clock
          && forall r | r in w.db && r.user == q.user && r.createdAt == w.cursor.value.createdAt ::
               r.id == w.cursor.value.id)
    && Descending(w.got) && (forall r | r in w.got :: Active(q, r))
    && (!w.done ==> forall r, i | 0 <= i < |w.got| && Lower(r, w.cursor) :: Above(w.got[i], r))
    && (w.cursor.None? && !w.done ==> w.got == [])
    && (forall r | r in initial && r in w.db && Active(q, r) :: r in w.got || (!w.done && Lower(r, w.cursor)))
  }

  /** Under the invariant both readings of the tuple comparison select the same rows. */
  lemma ReadingsAgree(q: Query, w: Walk, initial: set<Row>, r: Row)
    requires Inv(q, w, initial) && r in w.db && r.user == q.user
    ensures Past(q.reading, r, w.cursor) <==> Lower(r, w.cursor)
  {
  }

  lemma CreateKeeps(q: Query, w: Walk, initial: set<Row>, row: Row)
    requires Inv(q, w, initial) && row !in initial
    ensures Inv(q, Apply(q, w, Create(row)), initial)
  {
  }

  lemma ArchiveKeeps(q: Query, w: Walk, initial: set<Row>, row: Row)
    requires Inv(q, w, initial)
    ensures Inv(q, Apply(q, w, Archive(row)), initial)
  {
  }

  /** The rows of a page continue the walk: all below what was collected, and nothing active between. */
  lemma PageContinues(q: Query, w: Walk, initial: set<Row>)
    requires Inv(q, w, initial) && !w.done
    ensures var (items, more) := Page(w.db, q.user, q.reading, w.cursor, q.limit);
      && Descending(w.got + items)
      && (forall r | r in items :: r in w.db && Active(q, r) && Lower(r, w.cursor))
      && (!more ==> forall r | r in w.db && Active(q, r) && Lower(r, w.cursor) :: r in items)
      && (forall r, i | r in w.db && Active(q, r) && Lower(r, w.cursor) && r !in items && 0 <= i < |items| ::
            r.createdAt < items[i].createdAt)
      && (more ==> |items| == q.limit)
  {
    PageIs(w.db, q.user, q.reading, w.cursor, q.limit);
    var (items, more) := Page(w.db, q.user, q.reading, w.cursor, q.limit);
    forall r | r in w.db && r.user == q.user ensures Past(q.reading, r, w.cursor) <==> Lower(r, w.cursor) {
      ReadingsAgree(q, w, initial, r);
    }
    forall i, j | 0 <= i < |w.got| && 0 <= j < |items| ensures Above(w.got[i], items[j]) {
      assert items[j] in items;
    }
    forall r, i | r in w.db && Active(q, r) && Lower(r, w.cursor) && r !in items && 0 <= i < |items|
      ensures r.createdAt < items[i].createdAt
    {
      assert items[i] in items && Above(items[i], r);
    }
  }

  lemma PageKeeps(q: Query, w: Walk, initial: set<Row>)
    requires Inv(q, w, initial) && q.limit >= 1 && !w.done
    ensures Inv(q, Apply(q, w, NextPage), initial)
  {
    PageContinues(q, w, initial);
    var (items, more) := Page(w.db, q.user, q.reading, w.cursor, q.limit);
    if more && items != [] {
      CursorMoves(q, w, initial, items, Apply(q, w, NextPage));
    } else {
      WalkStops(q, w, initial, items, Apply(q, w, NextPage));
    }
  }

  lemma WalkStops(q: Query, w: Walk, initial: set<Row>, items: seq<Row>, v: Walk)
    requires Inv(q, w, initial) && !w.done && Descending(w.got + items)
    requires forall r | r in items :: Active(q, r)
    requires forall r | r in w.db && Active(q, r) && Lower(r, w.cursor) :: r in items
    requires v == w.(got := w.got + items, done := true)
    ensures Inv(q, v, initial)
  {
  }

  lemma CursorMoves(q: Query, w: Walk, initial: set<Row>, items: seq<Row>, v: Walk)
    requires Inv(q, w, initial) && !w.done && items != [] && Descending(w.got + items)
    requires forall r | r in items :: r in w.db && Active(q, r) && Lower(r, w.cursor)
    requires forall r | r in w.db && Active(q, r) && Lower(r, w.cursor) && r !in items ::
      r.createdAt < items[|items| - 1].createdAt
    requires var last := items[|items| - 1];
      v == w.(cursor := Some(Cursor(last.createdAt, last.id)), got := w.got + items)
    ensures Inv(q, v, initial)
  {
    assert items[|items| - 1] in items && (w.got + items)[|w.got + items| - 1] == items[|items| - 1];
    BelowLast(w.got + items);
  }

  lemma BelowLast(s: seq<Row>)
    requires Descending(s) && s != []
    ensures forall r: Row, i | r.createdAt < s[|s| - 1].createdAt && 0 <= i < |s| :: Above(s[i], r)
  {
    forall i | 0 <= i < |s| - 1 ensures Above(s[i], s[|s| - 1]) {}
  }

  // ---- whole walks ----

  predicate Fresh(step: Step, initial: set<Row>) {
    step.Create? ==> step.row !in initial
  }

  ghost predicate Begins(q: Query, w: Walk) {
    && KeyedById(w.db) && DistinctTimes(w.db, q.user)
    && (forall r | r in w.db && r.user == q.user :: r.createdAt <= w.clock)
    && w.cursor == None && w.got == [] && !w.done
  }

  ghost function Exec(q: Query, w: Walk, steps: seq<Step>): (v: Walk)
    requires KeyedById(w.db)
    ensures KeyedById(v.db)
  {
    if steps == [] then w
    else
      var v := Exec(q, w, steps[..|steps| - 1]);
      Apply(q, v, steps[|steps| - 1])
  }

  lemma {:induction false} WalkKeeps(q: Query, w: Walk, steps: seq<Step>)
    requires Begins(q, w) && q.limit >= 1 && forall i | 0 <= i < |steps| :: Fresh(steps[i], w.db)
    ensures Inv(q, Exec(q, w, steps), w.db)
  {
    if steps == [] {
    } else {
      var n := |steps| - 1;
      WalkKeeps(q, w, steps[..n]);
      var v := Exec(q, w, steps[..n]);
      match steps[n]
      case Create(row) => CreateKeeps(q, v, w.db, row);
      case Archive(row) => ArchiveKeeps(q, v, w.db, row);
      case Delete(row) =>
      case NextPage => if !v.done { PageKeeps(q, v, w.db); }
    }
  }

  /**
   A finished walk returns each row that was there at the start and is still active exactly once; everything it returns
   is a row of the user that was not archived, in strictly descending order. This holds for both readings of the
   comparison.
   */
  lemma WalkIsComplete(q: Query, w: Walk, steps: seq<Step>, r: Row)
    requires Begins(q, w) && q.limit >= 1 && forall i | 0 <= i < |steps| :: Fresh(steps[i], w.db)
    requires Exec(q, w, steps).done
    ensures var v := Exec(q, w, steps);
      && Descending(v.got) && (r in v.got ==> Active(q, r))
      && (r in w.db && r in v.db && Active(q, r) ==>
            exists i :: 0 <= i < |v.got| && v.got[i] == r && forall j | 0 <= j < |v.got| && v.got[j] == r :: j == i)
  {
    WalkKeeps(q, w, steps);
    var v := Exec(q, w, steps);
    if r in w.db && r in v.db && Active(q, r) {
      var i :| 0 <= i < |v.got| && v.got[i] == r;
      assert forall j | 0 <= j < |v.got| && v.got[j] == r :: j == i;
    }
  }

  /** Where a row can come from. */
  predicate Known(w: Walk, steps: seq<Step>, r: Row) {
    r in w.db || Create(r) in steps
  }

  /** On any walk, with ties and at any limit: every row returned was there at the start or was created on the way. */
  lemma {:induction false} ReturnsKnown(q: Query, w: Walk, steps: seq<Step>, r: Row)
    requires KeyedById(w.db) && w.got == []
    ensures var v := Exec(q, w, steps); !r.archived && (r in v.db || r in v.got) ==> Known(w, steps, r)
    ensures r in Exec(q, w, steps).got ==> Active(q, r)
  {
    if steps == [] {
    } else {
      var n := |steps| - 1;
      ReturnsKnown(q, w, steps[..n], r);
      assert steps == steps[..n] + [steps[n]];
      var v := Exec(q, w, steps[..n]);
      if steps[n].NextPage? { PageIs(v.db, q.user, q.reading, v.cursor, q.limit); }
    }
  }

  // ---- termination ----

  function Below(q: Query, w: Walk): set<Row> {
    set r | r in w.db && Active(q, r) && Lower(r, w.cursor)
  }

  /** A further page takes at least the row its cursor moves to. */
  lemma NextBelow(q: Query, w: Walk, initial: set<Row>)
    requires Inv(q, w, initial) && q.limit >= 1 && w.cursor.Some? && !w.done
    ensures var v := Apply(q, w, NextPage); v.done || |Below(q, v)| < |Below(q, w)|
  {
    var v := Apply(q, w, NextPage);
    PageContinues(q, w, initial);
    var (items, more) := Page(w.db, q.user, q.reading, w.cursor, q.limit);
    if more && items != [] {
      var last := items[|items| - 1];
      assert last in items && last in Below(q, w) && last !in Below(q, v);
      assert Below(q, v) <= Below(q, w) - {last};
      Subset(Below(q, v), Below(q, w) - {last});
    }
  }

  /** Once a page has been read, only fewer rows remain below the cursor, and every further page takes at least one. */
  lemma WalkProgress(q: Query, w: Walk, initial: set<Row>, step: Step)
    requires Inv(q, w, initial) && q.limit >= 1 && w.cursor.Some? && !w.done
    ensures var v := Apply(q, w, step);
      v.done || (|Below(q, v)| <= |Below(q, w)| && (step.NextPage? ==> |Below(q, v)| < |Below(q, w)|))
  {
    if step.NextPage? {
      NextBelow(q, w, initial);
    } else {
      Subset(Below(q, Apply(q, w, step)), Below(q, w));
    }
  }
}
