/** Reading what `json.dumps` wrote gives the value back, and what it wrote is a single line. */
module JsonRoundTrip {
  import opened Common
  import opened JsonText

  predicate OneLine(s: string) {
    forall i | 0 <= i < |s| :: s[i] >= ' '
  }

  // ---- strings ----

  lemma ControlEscape(c: char, s: string)
    requires c < ' '
    requires s == ['0', '0', HexDigit(c as nat / 16), HexDigit(c as nat % 16)]
    ensures HexChar(s) == Some(c)
  {
  }

  lemma ReadEscaped(c: char, x: string)
    ensures ReadChar(Escape(c) + x) == Some((c, |Escape(c)|))
  {
    var s := Escape(c) + x;
    if c < ' ' && |Escape(c)| == 6 {
      assert s[..2] == "\\u" && s[2..6] == ['0', '0', HexDigit(c as nat / 16), HexDigit(c as nat % 16)];
      ControlEscape(c, s[2..6]);
    }
  }

  lemma ReadNext(c: char, x: string, t: string, rest: string)
    requires ReadString(x) == Some((t, rest))
    ensures ReadString(Escape(c) + x) == Some(([c] + t, rest))
  {
    var s := Escape(c) + x;
    ReadEscaped(c, x);
    assert s[|Escape(c)|..] == x && s[0] == Escape(c)[0] != '"';
  }

  lemma {:induction false} ReadQuoted(s: string, rest: string)
    ensures ReadString(EscapeAll(s) + "\"" + rest) == Some((s, rest))
  {
    if s == "" {
      var t := "" + "\"" + rest;
      assert EscapeAll(s) + "\"" + rest == t && t[0] == '"' && t[1..] == rest;
    } else {
      var x := EscapeAll(s[1..]) + "\"" + rest;
      assert EscapeAll(s) + "\"" + rest == Escape(s[0]) + x;
      ReadQuoted(s[1..], rest);
      ReadNext(s[0], x, s[1..], rest);
      assert [s[0]] + s[1..] == s;
    }
  }

  lemma {:induction false} EscapeOneLine(s: string)
    ensures OneLine(EscapeAll(s))
  {
    if s == "" {
    } else {
      EscapeOneLine(s[1..]);
    }
  }

  // ---- values ----

  lemma {:induction false} NumPrefixOfToken(t: string, rest: string)
    requires forall i | 0 <= i < |t| :: IsNumChar(t[i])
    requires rest == "" || !IsNumChar(rest[0])
    ensures NumPrefix(t + rest) == |t|
  {
    if t == "" {
      assert t + rest == rest;
    } else {
      assert (t + rest)[1..] == t[1..] + rest;
      NumPrefixOfToken(t[1..], rest);
    }
  }

  predicate EndsNumber(rest: string) {
    rest == "" || !IsNumChar(rest[0])
  }

  lemma ReadNumber(t: string, rest: string)
    requires IsNumToken(t) && EndsNumber(rest)
    ensures ReadValue(t + rest) == Some((JNum(t), rest))
  {
    var s := t + rest;
    NumPrefixOfToken(t, rest);
    assert s[..|t|] == t && s[|t|..] == rest && s[0] == t[0];
  }

  lemma ReadText(t: string, rest: string)
    ensures ReadValue(Quote(t) + rest) == Some((JStr(t), rest))
  {
    var s := Quote(t) + rest;
    assert s[0] == '"' && s[1..] == EscapeAll(t) + "\"" + rest;
    ReadQuoted(t, rest);
  }

  lemma ReadScalar(v: Json, rest: string)
    requires Valid(v) && EndsNumber(rest) && !v.JArr? && !v.JObj?
    ensures ReadValue(Dumps(v) + rest) == Some((v, rest))
  {
    var s := Dumps(v) + rest;
    match v
    case JNum(t) => ReadNumber(t, rest);
    case JStr(t) => ReadText(t, rest);
    case JNull => assert s[..4] == "null" && s[4..] == rest;
    case JBool(b) =>
      if b {
        assert s[..4] == "true" && s[4..] == rest;
      } else {
        assert s[..5] == "false" && s[5..] == rest;
      }
  }

  /** No value starts with a closing bracket. */
  lemma DumpsStart(v: Json)
    requires Valid(v) || Written(v)
    ensures Dumps(v) != "" && Dumps(v)[0] != ']' && Dumps(v)[0] != '}'
  {
  }

  lemma ReadArray(items: seq<Json>, body: string, rest: string)
    requires body != "" && body[0] != ']' && ReadItems(body) == Some((items, rest))
    ensures ReadValue("[" + body) == Some((JArr(items), rest))
  {
    var s := "[" + body;
    assert s[0] == '[' && s[1] == body[0] && s[1..] == body;
  }

  lemma ReadObject(fields: seq<Field>, body: string, rest: string)
    requires body != "" && body[0] == '"' && ReadFields(body) == Some((fields, rest))
    ensures ReadValue("{" + body) == Some((JObj(fields), rest))
  {
    var s := "{" + body;
    assert s[0] == '{' && s[1] == body[0] && s[1..] == body;
  }

  lemma {:induction false} ReadDumps(v: Json, rest: string)
    requires Valid(v) && EndsNumber(rest)
    ensures ReadValue(Dumps(v) + rest) == Some((v, rest))
    decreases v, 1
  {
    match v
    case JArr(items) =>
      if items == [] {
      } else {
        ReadItemsDumps(items, rest);
        DumpsItemsStart(items);
        ReadArray(items, DumpsItems(items) + "]" + rest, rest);
        Bracketed("[", DumpsItems(items), "]", rest);
      }
    case JObj(fields) =>
      if fields == [] {
      } else {
        ReadFieldsDumps(fields, rest);
        ReadObject(fields, DumpsFields(fields) + "}" + rest, rest);
        Bracketed("{", DumpsFields(fields), "}", rest);
      }
    case _ => ReadScalar(v, rest);
  }

  lemma Bracketed(open: string, body: string, close: string, rest: string)
    ensures open + body + close + rest == open + (body + close + rest)
  {
  }

  lemma DumpsItemsStart(items: seq<Json>)
    requires items != [] && (Valid(items[0]) || Written(items[0]))
    ensures DumpsItems(items) != "" && DumpsItems(items)[0] != ']'
  {
    DumpsStart(items[0]);
  }

  lemma {:induction false} ReadItemsDumps(items: seq<Json>, rest: string)
    requires items != [] && forall i | 0 <= i < |items| :: Valid(items[i])
    ensures ReadItems(DumpsItems(items) + "]" + rest) == Some((items, rest))
    decreases items, 0
  {
    var s := DumpsItems(items) + "]" + rest;
    if |items| == 1 {
      var after := "]" + rest;
      assert s == Dumps(items[0]) + after;
      ReadDumps(items[0], after);
      assert after[..1] == "]" && after[1..] == rest && items == [items[0]];
    } else {
      var later := DumpsItems(items[1..]) + "]" + rest;
      var after := ", " + later;
      assert s == Dumps(items[0]) + after;
      ReadDumps(items[0], after);
      ReadItemsDumps(items[1..], rest);
      assert after[..2] == ", " && after[2..] == later && after[0] == ',';
      assert items == [items[0]] + items[1..];
    }
  }

  lemma {:induction false} ReadFieldsDumps(fields: seq<Field>, rest: string)
    requires fields != [] && forall i | 0 <= i < |fields| :: Valid(fields[i].val)
    ensures ReadFields(DumpsFields(fields) + "}" + rest) == Some((fields, rest))
    decreases fields, 0
  {
    var f := fields[0];
    assert f.val < f;
    if |fields| == 1 {
      ReadDumps(f.val, "}" + rest);
      ReadLastField(f, rest);
      assert fields == [f];
    } else {
      var others := fields[1..];
      ReadDumps(f.val, ", " + (DumpsFields(others) + "}" + rest));
      ReadFieldsDumps(others, rest);
      ReadOneField(f, DumpsFields(others), others, rest);
      assert fields == [f] + others;
    }
  }

  lemma ReadLastField(f: Field, rest: string)
    requires ReadValue(Dumps(f.val) + ("}" + rest)) == Some((f.val, "}" + rest))
    ensures ReadFields(Quote(f.key) + ": " + Dumps(f.val) + "" + "}" + rest) == Some(([f], rest))
  {
    assert "" + "}" + rest == "}" + rest;
    FieldText(f.key, Dumps(f.val), "", rest);
    ReadQuoted(f.key, ": " + (Dumps(f.val) + ("}" + rest)));
  }

  lemma ReadOneField(f: Field, more: string, fields: seq<Field>, rest: string)
    requires ReadValue(Dumps(f.val) + (", " + (more + "}" + rest))) == Some((f.val, ", " + (more + "}" + rest)))
    requires ReadFields(more + "}" + rest) == Some((fields, rest))
    ensures ReadFields(Quote(f.key) + ": " + Dumps(f.val) + (", " + more) + "}" + rest) == Some(([f] + fields, rest))
  {
    var value := Dumps(f.val) + (", " + (more + "}" + rest));
    assert ", " + more + "}" + rest == ", " + (more + "}" + rest);
    FieldText(f.key, Dumps(f.val), ", " + more, rest);
    ReadQuoted(f.key, ": " + value);
    FieldsCons(Quote(f.key) + ": " + Dumps(f.val) + (", " + more) + "}" + rest, f.key, value, f.val,
               more + "}" + rest, fields, rest);
  }

  lemma FieldText(key: string, val: string, tail: string, rest: string)
    ensures var s := Quote(key) + ": " + val + tail + "}" + rest;
      s[0] == '"' && s[1..] == EscapeAll(key) + "\"" + (": " + (val + (tail + "}" + rest)))
  {
  }

  lemma FieldsCons(s: string, key: string, value: string, v: Json, later: string, fields: seq<Field>, rest: string)
    requires s != "" && s[0] == '"' && ReadString(s[1..]) == Some((key, ": " + value))
    requires ReadValue(value) == Some((v, ", " + later))
    requires ReadFields(later) == Some((fields, rest))
    ensures ReadFields(s) == Some(([Field(key, v)] + fields, rest))
  {
    var after := ", " + later;
    assert (": " + value)[..2] == ": " && (": " + value)[2..] == value;
    assert after[0] == ',' && after[..2] == ", " && after[2..] == later;
  }

  lemma DumpsRoundTrip(v: Json)
    requires Valid(v)
    ensures Loads(Dumps(v)) == Some(v)
  {
    ReadDumps(v, "");
    assert Dumps(v) + "" == Dumps(v);
  }

  // ---- one line ----

  lemma ScalarOneLine(v: Json)
    requires Written(v) && !v.JArr? && !v.JObj?
    ensures OneLine(Dumps(v)) && Dumps(v) != ""
  {
    match v
    case JStr(s) =>
      EscapeOneLine(s);
    case JNum(t) => assert forall i | 0 <= i < |t| && IsNumChar(t[i]) :: t[i] >= ' ';
    case _ =>
  }

  lemma {:induction false} DumpsOneLine(v: Json)
    requires Written(v)
    ensures OneLine(Dumps(v)) && Dumps(v) != ""
    decreases v, 1
  {
    match v
    case JArr(items) =>
      if items != [] {
        ItemsOneLine(items);
      }
    case JObj(fields) =>
      if fields != [] {
        FieldsOneLine(fields);
      }
    case _ => ScalarOneLine(v);
  }

  lemma {:induction false} ItemsOneLine(items: seq<Json>)
    requires items != [] && forall i | 0 <= i < |items| :: Written(items[i])
    ensures OneLine(DumpsItems(items))
    decreases items, 0
  {
    DumpsOneLine(items[0]);
    if |items| > 1 {
      ItemsOneLine(items[1..]);
    }
  }

  lemma FieldOneLine(key: string, val: string, tail: string)
    requires OneLine(val) && OneLine(tail)
    ensures OneLine(Quote(key) + ": " + val + tail)
  {
    EscapeOneLine(key);
  }

  lemma {:induction false} FieldsOneLine(fields: seq<Field>)
    requires fields != [] && forall i | 0 <= i < |fields| :: Written(fields[i].val)
    ensures OneLine(DumpsFields(fields))
    decreases fields, 0
  {
    var f := fields[0];
    assert f.val < f;
    DumpsOneLine(f.val);
    if |fields| == 1 {
      FieldOneLine(f.key, Dumps(f.val), "");
    } else {
      FieldsOneLine(fields[1..]);
      FieldOneLine(f.key, Dumps(f.val), ", " + DumpsFields(fields[1..]));
    }
  }
}
