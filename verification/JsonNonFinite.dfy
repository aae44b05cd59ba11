/** A value with a non-finite number is written as a text that no JSON reader accepts. */
module JsonNonFinite {
  import opened Common
  import opened JsonText
  import opened JsonRoundTrip

  /** The reader gives up, or stops before the letters of a non-finite number. */
  predicate Stuck<T>(r: Option<(T, string)>) {
    r.None? || (r.value.1 != "" && r.value.1[0] == 'I')
  }

  lemma StuckNumber(t: string, rest: string)
    requires IsNonFinite(t)
    ensures Stuck(ReadValue(t + rest))
  {
    var s := t + rest;
    assert s[0] == t[0];
    if t == "-Infinity" {
      assert s[1] == 'I' && NumPrefix(s[1..]) == 0 && NumPrefix(s) == 1;
    }
  }

  lemma StuckObject(body: string)
    requires body != "" && body[0] == '"' && ReadFields(body).None?
    ensures ReadValue("{" + body).None?
  {
    var s := "{" + body;
    assert s[0] == '{' && s[1] == body[0] && s[1..] == body;
  }

  lemma StuckLater(s: string, v: Json, later: string)
    requires ReadValue(s) == Some((v, ", " + later)) && ReadItems(later).None?
    ensures ReadItems(s).None?
  {
    var after := ", " + later;
    assert after[0] == ',' && after[..2] == ", " && after[2..] == later;
  }

  lemma StuckFields(s: string, key: string, value: string, v: Json, later: string)
    requires s != "" && s[0] == '"' && ReadString(s[1..]) == Some((key, ": " + value))
    requires ReadValue(value) == Some((v, ", " + later)) && ReadFields(later).None?
    ensures ReadFields(s).None?
  {
    var after := ", " + later;
    assert (": " + value)[..2] == ": " && (": " + value)[2..] == value;
    assert after[0] == ',' && after[..2] == ", " && after[2..] == later;
  }

  lemma {:induction false} StuckDumps(v: Json, rest: string)
    requires Written(v) && !Valid(v)
    ensures Stuck(ReadValue(Dumps(v) + rest))
    decreases v, 1
  {
    match v
    case JNum(t) => StuckNumber(t, rest);
    case JArr(items) =>
      StuckItemsDumps(items, rest);
      DumpsItemsStart(items);
      Bracketed("[", DumpsItems(items), "]", rest);
    case JObj(fields) =>
      StuckFieldsDumps(fields, rest);
      StuckObject(DumpsFields(fields) + "}" + rest);
      Bracketed("{", DumpsFields(fields), "}", rest);
  }

  lemma {:induction false} StuckItemsDumps(items: seq<Json>, rest: string)
    requires items != [] && (forall i | 0 <= i < |items| :: Written(items[i]))
    requires exists i :: 0 <= i < |items| && !Valid(items[i])
    ensures ReadItems(DumpsItems(items) + "]" + rest).None?
    decreases items, 0
  {
    var s := DumpsItems(items) + "]" + rest;
    if !Valid(items[0]) {
      var after := (if |items| == 1 then "" else ", " + DumpsItems(items[1..])) + "]" + rest;
      assert s == Dumps(items[0]) + after;
      StuckDumps(items[0], after);
    } else {
      var i :| 0 <= i < |items| && !Valid(items[i]);
      assert items[1..][i - 1] == items[i];
      var later := DumpsItems(items[1..]) + "]" + rest;
      assert s == Dumps(items[0]) + (", " + later);
      ReadDumps(items[0], ", " + later);
      StuckItemsDumps(items[1..], rest);
      StuckLater(s, items[0], later);
    }
  }

  /** The text of a field list, as the reader sees it: a key, and a value text that starts with the first value. */
  lemma FieldsText(f: Field, tail: string, rest: string)
    ensures var s, value := Quote(f.key) + ": " + Dumps(f.val) + tail + "}" + rest, Dumps(f.val) + (tail + "}" + rest);
      s[0] == '"' && ReadString(s[1..]) == Some((f.key, ": " + value))
  {
    FieldText(f.key, Dumps(f.val), tail, rest);
    ReadQuoted(f.key, ": " + (Dumps(f.val) + (tail + "}" + rest)));
  }

  lemma StuckFirst(f: Field, tail: string, rest: string)
    requires Stuck(ReadValue(Dumps(f.val) + (tail + "}" + rest)))
    ensures ReadFields(Quote(f.key) + ": " + Dumps(f.val) + tail + "}" + rest).None?
  {
    FieldsText(f, tail, rest);
  }

  lemma StuckRest(f: Field, more: string, rest: string)
    requires ReadValue(Dumps(f.val) + (", " + (more + "}" + rest))) == Some((f.val, ", " + (more + "}" + rest)))
    requires ReadFields(more + "}" + rest).None?
    ensures ReadFields(Quote(f.key) + ": " + Dumps(f.val) + (", " + more) + "}" + rest).None?
  {
    var tail := ", " + more;
    assert tail + "}" + rest == ", " + (more + "}" + rest);
    FieldsText(f, tail, rest);
    StuckFields(Quote(f.key) + ": " + Dumps(f.val) + tail + "}" + rest, f.key, Dumps(f.val) + (tail + "}" + rest),
                f.val, more + "}" + rest);
  }

  lemma {:induction false} StuckFieldsDumps(fields: seq<Field>, rest: string)
    requires fields != [] && (forall i | 0 <= i < |fields| :: Written(fields[i].val))
    requires exists i :: 0 <= i < |fields| && !Valid(fields[i].val)
    ensures ReadFields(DumpsFields(fields) + "}" + rest).None?
    decreases fields, 0
  {
    var f := fields[0];
    assert f.val < f;
    if !Valid(f.val) {
      var tail := if |fields| == 1 then "" else ", " + DumpsFields(fields[1..]);
      StuckDumps(f.val, tail + "}" + rest);
      StuckFirst(f, tail, rest);
    } else {
      var i :| 0 <= i < |fields| && !Valid(fields[i].val);
      assert fields[1..][i - 1] == fields[i];
      ReadDumps(f.val, ", " + (DumpsFields(fields[1..]) + "}" + rest));
      StuckFieldsDumps(fields[1..], rest);
      StuckRest(f, DumpsFields(fields[1..]), rest);
    }
  }

  /** A written value can be read back exactly when all its numbers are finite, and then as itself. */
  lemma ReadableExact(v: Json)
    requires Written(v)
    ensures Loads(Dumps(v)) == if Valid(v) then Some(v) else None
  {
    if Valid(v) {
      DumpsRoundTrip(v);
    } else {
      StuckDumps(v, "");
      assert Dumps(v) + "" == Dumps(v);
    }
  }
}
