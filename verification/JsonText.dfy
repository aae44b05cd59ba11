/**
 JSON text as Python's `json.dumps(obj, ensure_ascii=False)` writes it, and a reader for it (RFC 8259, sections 2 to 7).
 Numbers are kept as their text. Python also writes the floats `NaN`, `Infinity` and `-Infinity`, which are not JSON.
 */
module JsonText {
  import opened Common

  datatype Json =
    | JNull
    | JBool(b: bool)
    | JNum(token: string)
    | JStr(s: string)
    | JArr(items: seq<Json>)
    | JObj(fields: seq<Field>)

  datatype Field = Field(key: string, val: Json)

  predicate IsNumChar(c: char) {
    '0' <= c <= '9' || c == '-' || c == '+' || c == '.' || c == 'e' || c == 'E'
  }

  predicate IsNumToken(t: string) {
    t != "" && (forall i | 0 <= i < |t| :: IsNumChar(t[i])) && ('0' <= t[0] <= '9' || t[0] == '-')
  }

  /** Number tokens are well formed everywhere in the value. */
  predicate Valid(v: Json) {
    match v
    case JNum(t) => IsNumToken(t)
    case JArr(items) => forall i | 0 <= i < |items| :: Valid(items[i])
    case JObj(fields) => forall i | 0 <= i < |fields| :: Valid(fields[i].val)
    case _ => true
  }

  predicate IsNonFinite(t: string) {
    t == "NaN" || t == "Infinity" || t == "-Infinity"
  }

  /** What `json.dumps` can be given: numbers may also be non-finite floats. */
  predicate Written(v: Json) {
    match v
    case JNum(t) => IsNumToken(t) || IsNonFinite(t)
    case JArr(items) => forall i | 0 <= i < |items| :: Written(items[i])
    case JObj(fields) => forall i | 0 <= i < |fields| :: Written(fields[i].val)
    case _ => true
  }

  // ---- writing ----

  function HexDigit(n: nat): char
    requires n < 16
  {
    "0123456789abcdef"[n]
  }

  /** Quotes, backslashes and control characters are escaped; everything else is written as it is. */
  function Escape(c: char): string {
    if c == '"' then "\\\""
    else if c == '\\' then "\\\\"
    else if c == '\n' then "\\n"
    else if c == '\r' then "\\r"
    else if c == '\t' then "\\t"
    else if c == '\U{C}' then "\\f"
    else if c == '\U{8}' then "\\b"
    else if c < ' ' then "\\u00" + [HexDigit(c as nat / 16), HexDigit(c as nat % 16)]
    else [c]
  }

  function EscapeAll(s: string): string {
    if s == "" then "" else Escape(s[0]) + EscapeAll(s[1..])
  }

  function Quote(s: string): string {
    "\"" + EscapeAll(s) + "\""
  }

  function Dumps(v: Json): string
    decreases v, 1
  {
    match v
    case JNull => "null"
    case JBool(b) => if b then "true" else "false"
    case JNum(t) => t
    case JStr(s) => Quote(s)
    case JArr(items) => if items == [] then "[]" else "[" + DumpsItems(items) + "]"
    case JObj(fields) => if fields == [] then "{}" else "{" + DumpsFields(fields) + "}"
  }

  function DumpsItems(items: seq<Json>): string
    requires items != []
    decreases items, 0
  {
    Dumps(items[0]) + if |items| == 1 then "" else ", " + DumpsItems(items[1..])
  }

  function DumpsFields(fields: seq<Field>): string
    requires fields != []
    decreases fields, 0
  {
    Quote(fields[0].key) + ": " + Dumps(fields[0].val)
    + if |fields| == 1 then "" else ", " + DumpsFields(fields[1..])
  }

  // ---- reading ----

  function HexValue(c: char): Option<nat> {
    if '0' <= c <= '9' then Some(c as nat - '0' as nat)
    else if 'a' <= c <= 'f' then Some(c as nat - 'a' as nat + 10)
    else if 'A' <= c <= 'F' then Some(c as nat - 'A' as nat + 10)
    else None
  }

  /** The four hex digits after `\u`; surrogate halves are rejected. */
  function HexChar(s: string): Option<char>
    requires |s| == 4
  {
    match (HexValue(s[0]), HexValue(s[1]), HexValue(s[2]), HexValue(s[3]))
    case (Some(a), Some(b), Some(c), Some(d)) =>
      var n := ((a * 16 + b) * 16 + c) * 16 + d;
      if n < 0xD800 || 0xE000 <= n < 0x11_0000 then Some(n as char) else None
    case _ => None
  }

  /** One character of a string body, and how much text it took. */
  function ReadChar(s: string): Option<(char, nat)>
    requires s != ""
  {
    if s[0] < ' ' || s[0] == '"' then None
    else if s[0] != '\\' then Some((s[0], 1))
    else if |s| < 2 then None
    else if s[1] == '"' || s[1] == '\\' || s[1] == '/' then Some((s[1], 2))
    else if s[1] == 'n' then Some(('\n', 2))
    else if s[1] == 'r' then Some(('\r', 2))
    else if s[1] == 't' then Some(('\t', 2))
    else if s[1] == 'f' then Some(('\U{C}', 2))
    else if s[1] == 'b' then Some(('\U{8}', 2))
    else if s[1] == 'u' && |s| >= 6 && HexChar(s[2..6]).Some? then Some((HexChar(s[2..6]).value, 6))
    else None
  }

  /** The body of a string up to its closing quote, and the text that follows. */
  function ReadString(s: string): (r: Option<(string, string)>)
    ensures r.Some? ==> |r.value.1| < |s|
    decreases |s|
  {
    if s == "" then None
    else if s[0] == '"' then Some(("", s[1..]))
    else
      match ReadChar(s)
      case None => None
      case Some((c, n)) =>
        if n == 0 || n > |s| then None
        else
          match ReadString(s[n..])
          case None => None
          case Some((t, rest)) => Some(([c] + t, rest))
  }

  function NumPrefix(s: string): (n: nat)
    ensures n <= |s|
  {
    if s != "" && IsNumChar(s[0]) then 1 + NumPrefix(s[1..]) else 0
  }

  function ReadWord(s: string, w: string, v: Json): (r: Option<(Json, string)>)
    requires w != ""
    ensures r.Some? ==> |r.value.1| < |s|
  {
    if w <= s then Some((v, s[|w|..])) else None
  }

  /** One value and the text that follows it. */
  function ReadValue(s: string): (r: Option<(Json, string)>)
    ensures r.Some? ==> |r.value.1| < |s|
    decreases |s|, 1
  {
    if s == "" then None
    else if s[0] == '"' then
      match ReadString(s[1..])
      case None => None
      case Some((t, rest)) => Some((JStr(t), rest))
    else if "[]" <= s then Some((JArr([]), s[2..]))
    else if s[0] == '[' then
      match ReadItems(s[1..])
      case None => None
      case Some((items, rest)) => Some((JArr(items), rest))
    else if "{}" <= s then Some((JObj([]), s[2..]))
    else if s[0] == '{' then
      match ReadFields(s[1..])
      case None => None
      case Some((fields, rest)) => Some((JObj(fields), rest))
    else if s[0] == 'n' then ReadWord(s, "null", JNull)
    else if s[0] == 't' then ReadWord(s, "true", JBool(true))
    else if s[0] == 'f' then ReadWord(s, "false", JBool(false))
    else if '0' <= s[0] <= '9' || s[0] == '-' then Some((JNum(s[..NumPrefix(s)]), s[NumPrefix(s)..]))
    else None
  }

  /** A non-empty list of values up to and including the closing bracket. */
  function ReadItems(s: string): (r: Option<(seq<Json>, string)>)
    ensures r.Some? ==> |r.value.1| < |s|
    decreases |s|, 2
  {
    match ReadValue(s)
    case None => None
    case Some((v, rest)) =>
      if "]" <= rest then Some(([v], rest[1..]))
      else if ", " <= rest then
        match ReadItems(rest[2..])
        case None => None
        case Some((items, after)) => Some(([v] + items, after))
      else None
  }

  function ReadFields(s: string): (r: Option<(seq<Field>, string)>)
    ensures r.Some? ==> |r.value.1| < |s|
    decreases |s|, 2
  {
    if s == "" || s[0] != '"' then None
    else
      match ReadString(s[1..])
      case None => None
      case Some((key, afterKey)) =>
        if !(": " <= afterKey) then None
        else
          match ReadValue(afterKey[2..])
          case None => None
          case Some((v, rest)) =>
            if "}" <= rest then Some(([Field(key, v)], rest[1..]))
            else if ", " <= rest then
              match ReadFields(rest[2..])
              case None => None
              case Some((fields, after)) => Some(([Field(key, v)] + fields, after))
            else None
  }

  /** A whole text that is one value. */
  function Loads(s: string): Option<Json> {
    match ReadValue(s)
    case Some((v, "")) => Some(v)
    case _ => None
  }
}
