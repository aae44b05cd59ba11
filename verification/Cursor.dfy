/**
 Opaque pagination cursors: `<timestamp>|<id>` in URL-safe base64 (section 5 of RFC 4648). The decoder follows the
 lenient one the repository calls: characters outside the alphabet are skipped and decoding stops at complete padding.
 Text is ASCII; the timestamp format is a parameter that can be parsed back and contains no `|`.
 */
module Cursor {
  import opened Common

  type byte = n: int | 0 <= n < 256

  type sextet = n: int | 0 <= n < 64

  // ---- base64 ----

  function Digit(v: sextet): char {
    if v < 26 then ('A' as int + v) as char
    else if v < 52 then ('a' as int + v - 26) as char
    else if v < 62 then ('0' as int + v - 52) as char
    else if v == 62 then '-'
    else '_'
  }

  /** Both alphabets are accepted: `-` and `_` are translated to `+` and `/` first. */
  function Value(c: char): Option<sextet> {
    if 'A' <= c <= 'Z' then Some(c as int - 'A' as int)
    else if 'a' <= c <= 'z' then Some(c as int - 'a' as int + 26)
    else if '0' <= c <= '9' then Some(c as int - '0' as int + 52)
    else if c == '-' || c == '+' then Some(62)
    else if c == '_' || c == '/' then Some(63)
    else None
  }

  function Encode(bs: seq<byte>): string {
    if bs == [] then ""
    else if |bs| == 1 then [Digit(bs[0] / 4), Digit(bs[0] % 4 * 16), '=', '=']
    else if |bs| == 2 then
      [Digit(bs[0] / 4), Digit(bs[0] % 4 * 16 + bs[1] / 16), Digit(bs[1] % 16 * 4), '=']
    else
      [Digit(bs[0] / 4), Digit(bs[0] % 4 * 16 + bs[1] / 16), Digit(bs[1] % 16 * 4 + bs[2] / 64), Digit(bs[2] % 64)]
      + Encode(bs[3..])
  }

  /** Bits left over inside a group of four: none, six, four or two. */
  datatype Carry = C0 | C1(six: sextet) | C2(four: nat) | C3(two: nat)

  predicate CarryOk(c: Carry) {
    match c
    case C2(left) => left < 16
    case C3(left) => left < 4
    case _ => true
  }

  function Cons(b: byte, r: Option<seq<byte>>): Option<seq<byte>> {
    if r.Some? then Some([b] + r.value) else None
  }

  /** `pads` counts the padding seen since the last digit. */
  function Decode(s: string, carry: Carry, pads: nat): Option<seq<byte>>
    requires CarryOk(carry)
  {
    if s == "" then (if carry == C0 then Some([]) else None)
    else if s[0] == '=' then
      var pos := if carry.C2? then 2 else if carry.C3? then 3 else 0;
      if pos >= 2 && pos + pads + 1 >= 4 then Some([])
      else Decode(s[1..], carry, if pos >= 2 then pads + 1 else pads)
    else
      match Value(s[0])
      case None => Decode(s[1..], carry, pads)
      case Some(v) =>
        match carry
        case C0 => Decode(s[1..], C1(v), 0)
        case C1(left) => Cons(left * 4 + v / 16, Decode(s[1..], C2(v % 16), 0))
        case C2(left) => Cons(left * 16 + v / 4, Decode(s[1..], C3(v % 4), 0))
        case C3(left) => Cons(left * 64 + v, Decode(s[1..], C0, 0))
  }

  lemma DigitValue(v: sextet)
    ensures Value(Digit(v)) == Some(v) && Digit(v) != '='
  {
  }

  /** One digit of the alphabet, read in any state. */
  lemma ReadDigit(v: sextet, rest: string, carry: Carry, pads: nat)
    requires CarryOk(carry)
    ensures Decode([Digit(v)] + rest, carry, pads)
         == match carry
            case C0 => Decode(rest, C1(v), 0)
            case C1(left) => Cons(left * 4 + v / 16, Decode(rest, C2(v % 16), 0))
            case C2(left) => Cons(left * 16 + v / 4, Decode(rest, C3(v % 4), 0))
            case C3(left) => Cons(left * 64 + v, Decode(rest, C0, 0))
  {
    DigitValue(v);
    assert ([Digit(v)] + rest)[1..] == rest;
  }

  /** The four digits of three bytes give the three bytes back. */
  lemma GroupBits(a: byte, b: byte, c: byte)
    ensures var d1, d2, d3 := a % 4 * 16 + b / 16, b % 16 * 4 + c / 64, c % 64;
      a / 4 * 4 + d1 / 16 == a && d1 % 16 * 16 + d2 / 4 == b && d2 % 4 * 64 + d3 == c
  {
  }

  lemma FourDigits(d0: sextet, d1: sextet, d2: sextet, d3: sextet, rest: string)
    requires d0 * 4 + d1 / 16 < 256 && d1 % 16 * 16 + d2 / 4 < 256 && d2 % 4 * 64 + d3 < 256
    ensures Decode([Digit(d0), Digit(d1), Digit(d2), Digit(d3)] + rest, C0, 0)
         == Cons(d0 * 4 + d1 / 16, Cons(d1 % 16 * 16 + d2 / 4, Cons(d2 % 4 * 64 + d3, Decode(rest, C0, 0))))
  {
    var t3 := [Digit(d3)] + rest;
    var t2 := [Digit(d2)] + t3;
    var t1 := [Digit(d1)] + t2;
    assert [Digit(d0), Digit(d1), Digit(d2), Digit(d3)] + rest == [Digit(d0)] + t1;
    ReadDigit(d3, rest, C3(d2 % 4), 0);
    ReadDigit(d2, t3, C2(d1 % 16), 0);
    ReadDigit(d1, t2, C1(d0), 0);
    ReadDigit(d0, t1, C0, 0);
  }

  lemma ReadGroup(a: byte, b: byte, c: byte, rest: string)
    ensures Decode([Digit(a / 4), Digit(a % 4 * 16 + b / 16), Digit(b % 16 * 4 + c / 64), Digit(c % 64)] + rest, C0, 0)
         == Cons(a, Cons(b, Cons(c, Decode(rest, C0, 0))))
  {
    GroupBits(a, b, c);
    FourDigits(a / 4, a % 4 * 16 + b / 16, b % 16 * 4 + c / 64, c % 64, rest);
  }

  lemma ReadOne(a: byte)
    ensures Decode([Digit(a / 4), Digit(a % 4 * 16), '=', '='], C0, 0) == Some([a])
  {
    var d0, d1 := a / 4, a % 4 * 16;
    assert [Digit(d0), Digit(d1), '=', '='] == [Digit(d0)] + ([Digit(d1)] + "==");
    ReadDigit(d1, "==", C1(d0), 0);
    ReadDigit(d0, [Digit(d1)] + "==", C0, 0);
    assert d0 * 4 + d1 / 16 == a && d1 % 16 == 0;
    assert "=="[1..] == "=";
    assert Decode("==", C2(0), 0) == Decode("=", C2(0), 1) == Some([]);
    assert [a] + [] == [a];
  }

  lemma ReadTwo(a: byte, b: byte)
    ensures Decode([Digit(a / 4), Digit(a % 4 * 16 + b / 16), Digit(b % 16 * 4), '='], C0, 0) == Some([a, b])
  {
    var d0, d1, d2 := a / 4, a % 4 * 16 + b / 16, b % 16 * 4;
    assert [Digit(d0), Digit(d1), Digit(d2), '='] == [Digit(d0)] + ([Digit(d1)] + ([Digit(d2)] + "="));
    ReadDigit(d2, "=", C2(d1 % 16), 0);
    ReadDigit(d1, [Digit(d2)] + "=", C1(d0), 0);
    ReadDigit(d0, [Digit(d1)] + ([Digit(d2)] + "="), C0, 0);
    assert d0 * 4 + d1 / 16 == a && d1 % 16 * 16 + d2 / 4 == b && d2 % 4 == 0;
    assert Decode("=", C3(0), 0) == Some([]);
    assert [a] + ([b] + []) == [a, b];
  }

  /** Decoding undoes encoding, for every byte string. */
  lemma {:induction false} Base64RoundTrip(bs: seq<byte>)
    ensures Decode(Encode(bs), C0, 0) == Some(bs)
  {
    if |bs| == 1 {
      ReadOne(bs[0]);
      assert bs == [bs[0]];
    } else if |bs| == 2 {
      ReadTwo(bs[0], bs[1]);
      assert bs == [bs[0], bs[1]];
    } else if |bs| >= 3 {
      ReadGroup(bs[0], bs[1], bs[2], Encode(bs[3..]));
      Base64RoundTrip(bs[3..]);
      assert [bs[0]] + ([bs[1]] + ([bs[2]] + bs[3..])) == bs;
    }
  }

  // ---- the encoding and the decoder, against section 5 of RFC 4648 ----

  /**
   The digits are the URL-safe alphabet: upper case, lower case, decimal digits, a hyphen and an underscore. The decoder
   also takes the last two characters of the standard alphabet.
   */
  lemma AlphabetExact(v: sextet, c: char)
    ensures Digit(0) == 'A' && Digit(25) == 'Z' && Digit(26) == 'a' && Digit(51) == 'z' && Digit(52) == '0'
    ensures Digit(61) == '9' && Digit(62) == '-' && Digit(63) == '_'
    ensures v != 25 && v != 51 && v < 61 ==> Digit(v + 1) as int == Digit(v) as int + 1
    ensures Value(c) == Some(v) <==> c == Digit(v) || (v == 62 && c == '+') || (v == 63 && c == '/')
  {
  }

  function Number(digits: string): nat {
    if digits == "" then 0
    else
      var v := Value(digits[|digits| - 1]);
      64 * Number(digits[..|digits| - 1]) + if v.Some? then v.value else 0
  }

  function Bits(a: int, b: int, c: int): int {
    65536 * a + 256 * b + c
  }

  /** Three bytes, read as one number of 24 bits, become its four digits; the bits missing in a last group are zero. */
  lemma EncodeExact(bs: seq<byte>)
    ensures |bs| >= 3 ==> |Encode(bs)| >= 4 && Encode(bs)[4..] == Encode(bs[3..])
                          && Number(Encode(bs)[..4]) == Bits(bs[0], bs[1], bs[2])
    ensures |bs| == 2 ==> |Encode(bs)| == 4 && Encode(bs)[3] == '='
                          && Number(Encode(bs)[..3]) * 64 == Bits(bs[0], bs[1], 0)
    ensures |bs| == 1 ==> |Encode(bs)| == 4 && Encode(bs)[2..] == "=="
                          && Number(Encode(bs)[..2]) * 4096 == Bits(bs[0], 0, 0)
    ensures bs == [] ==> Encode(bs) == ""
  {
    if |bs| >= 3 {
      FourNumber(bs[0] / 4, bs[0] % 4 * 16 + bs[1] / 16, bs[1] % 16 * 4 + bs[2] / 64, bs[2] % 64);
      assert Encode(bs)[..4] == [Digit(bs[0] / 4), Digit(bs[0] % 4 * 16 + bs[1] / 16),
                                 Digit(bs[1] % 16 * 4 + bs[2] / 64), Digit(bs[2] % 64)];
    } else if |bs| == 2 {
      FourNumber(bs[0] / 4, bs[0] % 4 * 16 + bs[1] / 16, bs[1] % 16 * 4, 0);
      assert Encode(bs)[..3] == [Digit(bs[0] / 4), Digit(bs[0] % 4 * 16 + bs[1] / 16), Digit(bs[1] % 16 * 4)];
    } else if |bs| == 1 {
      FourNumber(bs[0] / 4, bs[0] % 4 * 16, 0, 0);
      assert Encode(bs)[..2] == [Digit(bs[0] / 4), Digit(bs[0] % 4 * 16)];
    }
  }

  lemma NumberSnoc(digits: string, v: sextet)
    ensures Number(digits + [Digit(v)]) == 64 * Number(digits) + v
  {
    DigitValue(v);
    assert (digits + [Digit(v)])[..|digits|] == digits;
  }

  lemma FourNumber(d0: sextet, d1: sextet, d2: sextet, d3: sextet)
    ensures Number([Digit(d0), Digit(d1)]) == 64 * d0 + d1
    ensures Number([Digit(d0), Digit(d1), Digit(d2)]) == 4096 * d0 + 64 * d1 + d2
    ensures Number([Digit(d0), Digit(d1), Digit(d2), Digit(d3)]) == 262144 * d0 + 4096 * d1 + 64 * d2 + d3
  {
    NumberSnoc([], d0);
    NumberSnoc([Digit(d0)], d1);
    NumberSnoc([Digit(d0), Digit(d1)], d2);
    NumberSnoc([Digit(d0), Digit(d1), Digit(d2)], d3);
    assert [] + [Digit(d0)] == [Digit(d0)] && [Digit(d0)] + [Digit(d1)] == [Digit(d0), Digit(d1)];
    assert [Digit(d0), Digit(d1)] + [Digit(d2)] == [Digit(d0), Digit(d1), Digit(d2)];
    assert [Digit(d0), Digit(d1), Digit(d2)] + [Digit(d3)] == [Digit(d0), Digit(d1), Digit(d2), Digit(d3)];
  }

  /** Characters outside the alphabet make no difference, wherever they stand. */
  lemma {:induction false} SkipsForeign(x: string, c: char, y: string, carry: Carry, pads: nat)
    requires CarryOk(carry) && Value(c).None? && c != '='
    ensures Decode(x + [c] + y, carry, pads) == Decode(x + y, carry, pads)
    decreases |x|
  {
    if x == "" {
      assert x + [c] + y == [c] + y && x + y == y;
      assert ([c] + y)[1..] == y;
    } else {
      var s, t := x + [c] + y, x + y;
      assert s[0] == x[0] == t[0] && s[1..] == x[1..] + [c] + y && t[1..] == x[1..] + y;
      if x[0] == '=' {
        var pos := if carry.C2? then 2 else if carry.C3? then 3 else 0;
        SkipsForeign(x[1..], c, y, carry, if pos >= 2 then pads + 1 else pads);
      } else {
        match Value(x[0])
        case None => SkipsForeign(x[1..], c, y, carry, pads);
        case Some(v) =>
          var next := match carry case C0 => C1(v) case C1(_) => C2(v % 16) case C2(_) => C3(v % 4) case C3(_) => C0;
          SkipsForeign(x[1..], c, y, next, 0);
      }
    }
  }

  // ---- cursors ----

  predicate Ascii(s: string) {
    forall i | 0 <= i < |s| :: s[i] < '\U{80}'
  }

  function Bytes(s: string): seq<byte>
    requires Ascii(s)
  {
    seq(|s|, i requires 0 <= i < |s| => s[i] as int)
  }

  /** The text of ASCII bytes; other bytes are not text here. */
  function TextOf(bs: seq<byte>): Option<string> {
    if forall i | 0 <= i < |bs| :: bs[i] < 128 then
      Some(seq(|bs|, i requires 0 <= i < |bs| => (assert bs[i] < 128; bs[i] as char)))
    else None
  }

  /** `decoded.split("|", 1)`. */
  function SplitBar(s: string): Option<(string, string)> {
    if s == "" then None
    else if s[0] == '|' then Some(("", s[1..]))
    else
      match SplitBar(s[1..])
      case None => None
      case Some((a, b)) => Some(([s[0]] + a, b))
  }

  /** A timestamp format that can be parsed back. */
  ghost predicate Faithful<T(!new)>(format: T -> string, parse: string -> Option<T>) {
    forall t :: parse(format(t)) == Some(t) && Ascii(format(t)) && '|' !in format(t)
  }

  function EncodeCursor<T>(format: T -> string, createdAt: T, id: string): string
    requires Ascii(format(createdAt)) && Ascii(id)
  {
    Encode(Bytes(format(createdAt) + "|" + id))
  }

  /** The pair, or nothing where the repository raises. */
  function DecodeCursor<T>(parse: string -> Option<T>, cursor: string): Option<(T, string)> {
    match Decode(cursor, C0, 0)
    case None => None
    case Some(bs) =>
      match TextOf(bs)
      case None => None
      case Some(text) =>
        match SplitBar(text)
        case None => None
        case Some((ts, id)) =>
          match parse(ts)
          case None => None
          case Some(t) => Some((t, id))
  }

  lemma TextRoundTrip(s: string)
    requires Ascii(s)
    ensures TextOf(Bytes(s)) == Some(s)
  {
    var bs := Bytes(s);
    assert forall i | 0 <= i < |bs| :: bs[i] == s[i] as int && bs[i] < 128;
    assert TextOf(bs).value == s;
  }

  lemma {:induction false} SplitAtBar(a: string, b: string)
    requires '|' !in a
    ensures SplitBar(a + "|" + b) == Some((a, b))
  {
    var s := a + "|" + b;
    if a == "" {
      assert s[0] == '|' && s[1..] == b;
    } else {
      assert s[1..] == a[1..] + "|" + b && s[0] == a[0] && a[0] in a;
      SplitAtBar(a[1..], b);
      assert [a[0]] + a[1..] == a;
    }
  }

  /** A cursor decodes to the timestamp and id it was made from, even when the id contains `|`. */
  lemma CursorRoundTrip<T(!new)>(format: T -> string, parse: string -> Option<T>, createdAt: T, id: string)
    requires Faithful(format, parse) && Ascii(id)
    ensures Ascii(format(createdAt))
    ensures DecodeCursor(parse, EncodeCursor(format, createdAt, id)) == Some((createdAt, id))
  {
    var text := format(createdAt) + "|" + id;
    assert Ascii(text);
    Base64RoundTrip(Bytes(text));
    TextRoundTrip(text);
    SplitAtBar(format(createdAt), id);
  }

  lemma {:induction false} SplitBarIs(s: string)
    ensures SplitBar(s).None? ==> '|' !in s
    ensures SplitBar(s).Some? ==> var (a, b) := SplitBar(s).value; s == a + "|" + b && '|' !in a
  {
    if s == "" || s[0] == '|' {
    } else {
      SplitBarIs(s[1..]);
      assert s == [s[0]] + s[1..];
    }
  }

  /** The text inside a cursor, if it is base64 of text. */
  function TextIn(cursor: string): Option<string> {
    match Decode(cursor, C0, 0)
    case None => None
    case Some(bs) => TextOf(bs)
  }

  /** `id` is what follows the first `|`, and the timestamp is what precedes it. */
  ghost predicate Says<T(!new)>(parse: string -> Option<T>, text: string, createdAt: T, id: string) {
    exists ts: string :: text == ts + "|" + id && '|' !in ts && parse(ts) == Some(createdAt)
  }

  /**
   Decoding answers `(createdAt, id)` exactly when the cursor is base64 of a text that says so. It raises in all other
   cases: malformed base64 or text, no separator, or a timestamp that cannot be parsed.
   */
  lemma DecodeExact<T(!new)>(parse: string -> Option<T>, cursor: string, createdAt: T, id: string)
    ensures DecodeCursor(parse, cursor) == Some((createdAt, id))
       <==> TextIn(cursor).Some? && Says(parse, TextIn(cursor).value, createdAt, id)
  {
    if TextIn(cursor).Some? {
      var text := TextIn(cursor).value;
      SplitBarIs(text);
      if Says(parse, text, createdAt, id) {
        var ts: string :| text == ts + "|" + id && '|' !in ts && parse(ts) == Some(createdAt);
        SplitAtBar(ts, id);
      }
    }
  }
}
