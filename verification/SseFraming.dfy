/**
 The wire format of the chat stream: one `data:` line per frame, a terminator line, and the client that reads it back.
 Reading follows sections 9.2.5 and 9.2.6 of the WHATWG HTML Standard for the `data` field.
 */
module SseFraming {
  import opened Common
  import opened JsonText
  import opened JsonRoundTrip
  import opened JsonNonFinite
  import opened ThinkFilter
  import opened ChatStream
  import ChatTheorems

  // ---- writing ----

  datatype Ids = Ids(message: string, text: string, reason: string)

  function StrField(key: string, s: string): Field {
    Field(key, JStr(s))
  }

  function Nullable(s: Option<string>): Json {
    if s.Some? then JStr(s.value) else JNull
  }

  /** The object of a frame; the terminator has none. */
  function FrameObject(ids: Ids, f: Frame): Option<Json> {
    match f
    case Start => Some(JObj([StrField("type", "start"), StrField("messageId", ids.message)]))
    case StartStep => Some(JObj([StrField("type", "start-step")]))
    case ToolInputStart(id, name) =>
      Some(JObj([StrField("type", "tool-input-start"), Field("toolCallId", Nullable(id)), StrField("toolName", name)]))
    case ToolInputAvailable(name, input) =>
      Some(JObj([StrField("type", "tool-input-available"), StrField("toolCallId", name), StrField("toolName", name),
                 Field("input", input)]))
    case ToolOutputAvailable(name, output) =>
      Some(JObj([StrField("type", "tool-output-available"), StrField("toolCallId", name), Field("output", output)]))
    case ReasoningStart => Some(JObj([StrField("type", "reasoning-start"), StrField("id", ids.reason)]))
    case ReasoningDelta(delta) =>
      Some(JObj([StrField("type", "reasoning-delta"), StrField("id", ids.reason), Field("delta", delta)]))
    case ReasoningEnd => Some(JObj([StrField("type", "reasoning-end"), StrField("id", ids.reason)]))
    case TextStart => Some(JObj([StrField("type", "text-start"), StrField("id", ids.text)]))
    case TextDelta(delta) =>
      Some(JObj([StrField("type", "text-delta"), StrField("id", ids.text), StrField("delta", delta)]))
    case Finish(reason) =>
      Some(JObj([StrField("type", "finish"), StrField("finishReason", if reason == Stop then "stop" else "cancel")]))
    case Error(message) => Some(JObj([StrField("type", "error"), StrField("error", message)]))
    case Done => None
  }

  const DONE := "[DONE]"

  function PayloadOf(o: Option<Json>): string {
    if o.Some? then Dumps(o.value) else DONE
  }

  function SseLine(payload: string): string {
    "data: " + payload + "\n\n"
  }

  function Wire(objects: seq<Option<Json>>): string {
    if objects == [] then "" else SseLine(PayloadOf(objects[0])) + Wire(objects[1..])
  }

  // ---- reading ----

  function BreakAt(s: string): (n: nat)
    ensures n <= |s| && forall i | 0 <= i < n :: s[i] != '\n' && s[i] != '\r'
    ensures n < |s| ==> s[n] == '\n' || s[n] == '\r'
  {
    if s == "" || s[0] == '\n' || s[0] == '\r' then 0 else 1 + BreakAt(s[1..])
  }

  /** A complete line and the rest of the stream; CR, LF and CRLF end a line. */
  function NextLine(s: string): (r: Option<(string, string)>)
    ensures r.Some? ==> |r.value.1| < |s|
  {
    var n := BreakAt(s);
    if n == |s| then None
    else if s[n] == '\r' && n + 1 < |s| && s[n + 1] == '\n' then Some((s[..n], s[n + 2..]))
    else Some((s[..n], s[n + 1..]))
  }

  /** What a line adds to the data buffer; other fields and comments add nothing. */
  function LineData(line: string): string {
    if "data: " <= line then line[6..] + "\n"
    else if "data:" <= line then line[5..] + "\n"
    else if line == "data" then "\n"
    else ""
  }

  /** The payloads dispatched by a stream; an unfinished event at its end is dropped. */
  function ReadEvents(s: string, data: string): seq<string>
    decreases |s|
  {
    match NextLine(s)
    case None => []
    case Some((line, rest)) =>
      if line != "" then ReadEvents(rest, data + LineData(line))
      else (if data == "" then [] else [data[..|data| - 1]]) + ReadEvents(rest, "")
  }

  /** A client stops at the terminator and parses everything else. */
  function Decode(payloads: seq<string>): seq<Option<Json>> {
    if payloads == [] then []
    else if payloads[0] == DONE then [None]
    else
      match Loads(payloads[0])
      case None => Decode(payloads[1..])
      case Some(v) => [Some(v)] + Decode(payloads[1..])
  }

  // ---- the round trip ----

  lemma {:induction false} BreakAfterLine(x: string, rest: string)
    requires OneLine(x)
    ensures BreakAt(x + "\n" + rest) == |x|
  {
    var s := x + "\n" + rest;
    if x == "" {
      assert s[0] == '\n';
    } else {
      assert s[1..] == x[1..] + "\n" + rest;
      BreakAfterLine(x[1..], rest);
    }
  }

  lemma LineRead(x: string, rest: string)
    requires OneLine(x)
    ensures NextLine(x + "\n" + rest) == Some((x, rest))
  {
    BreakAfterLine(x, rest);
    var s := x + "\n" + rest;
    assert s[..|x|] == x && s[|x| + 1..] == rest && s[|x|] == '\n';
  }

  lemma EventRead(payload: string, rest: string)
    requires OneLine(payload) && payload != ""
    ensures ReadEvents(SseLine(payload) + rest, "") == [payload] + ReadEvents(rest, "")
  {
    var line := "data: " + payload;
    var after := "\n" + rest;
    assert SseLine(payload) + rest == line + "\n" + after;
    LineRead(line, after);
    assert "" + "\n" + rest == after;
    LineRead("", rest);
    assert line[..6] == "data: " && line[6..] == payload;
    var data := "" + LineData(line);
    assert data == payload + "\n" && data[..|data| - 1] == payload;
    assert ReadEvents(after, data) == [payload] + ReadEvents(rest, "");
  }

  /** Objects only: an array or a scalar could in principle spell the terminator. */
  ghost predicate Sendable(o: Option<Json>) {
    o.Some? ==> o.value.JObj? && Written(o.value)
  }

  function Payloads(objects: seq<Option<Json>>): seq<string> {
    if objects == [] then [] else [PayloadOf(objects[0])] + Payloads(objects[1..])
  }

  lemma PayloadOneLine(o: Option<Json>)
    requires Sendable(o)
    ensures OneLine(PayloadOf(o)) && PayloadOf(o) != ""
  {
    if o.Some? { DumpsOneLine(o.value); }
  }

  lemma {:induction false} WireRead(objects: seq<Option<Json>>)
    requires forall i | 0 <= i < |objects| :: Sendable(objects[i])
    ensures ReadEvents(Wire(objects), "") == Payloads(objects)
  {
    if objects == [] {
    } else {
      PayloadOneLine(objects[0]);
      EventRead(PayloadOf(objects[0]), Wire(objects[1..]));
      WireRead(objects[1..]);
    }
  }

  lemma ObjectIsNotDone(v: Json)
    requires v.JObj?
    ensures Dumps(v) != DONE
  {
    assert Dumps(v)[0] == '{';
  }

  /** Does a reader accept the payload? */
  predicate Readable(o: Option<Json>) {
    o.Some? ==> Valid(o.value)
  }

  function ReadableOf(objects: seq<Option<Json>>): seq<Option<Json>> {
    if objects == [] then []
    else (if Readable(objects[0]) then [objects[0]] else []) + ReadableOf(objects[1..])
  }

  lemma {:induction false} DecodePayloads(objects: seq<Option<Json>>)
    requires forall i | 0 <= i < |objects| :: Sendable(objects[i])
    requires objects != [] && objects[|objects| - 1].None?
    requires forall i | 0 <= i < |objects| - 1 :: objects[i].Some?
    ensures Decode(Payloads(objects)) == ReadableOf(objects)
  {
    var ps := Payloads(objects);
    assert ps[0] == PayloadOf(objects[0]) && ps[1..] == Payloads(objects[1..]);
    if |objects| == 1 {
      assert objects == [None] && ReadableOf(objects) == [None] + ReadableOf(objects[1..]);
    } else {
      ObjectIsNotDone(objects[0].value);
      ReadableExact(objects[0].value);
      DecodePayloads(objects[1..]);
    }
  }

  /** Nothing is left out exactly when everything is readable. */
  lemma {:induction false} ReadableAll(objects: seq<Option<Json>>)
    ensures |ReadableOf(objects)| <= |objects|
    ensures ReadableOf(objects) == objects <==> forall i | 0 <= i < |objects| :: Readable(objects[i])
  {
    if objects == [] {
    } else {
      ReadableAll(objects[1..]);
      assert objects == [objects[0]] + objects[1..];
      assert forall i | 1 <= i < |objects| :: objects[i] == objects[1..][i - 1];
      if Readable(objects[0]) {
        assert ReadableOf(objects)[1..] == ReadableOf(objects[1..]);
      }
    }
  }

  function Objects(ids: Ids, frames: seq<Frame>): seq<Option<Json>> {
    seq(|frames|, i requires 0 <= i < |frames| => FrameObject(ids, frames[i]))
  }

  /** The values carried by a frame can be written. */
  predicate Carries(f: Frame) {
    match f
    case ToolInputAvailable(_, v) => Written(v)
    case ToolOutputAvailable(_, v) => Written(v)
    case ReasoningDelta(v) => Written(v)
    case _ => true
  }

  /** The numbers carried by a frame are finite. */
  predicate Finite(f: Frame) {
    match f
    case ToolInputAvailable(_, v) => Valid(v)
    case ToolOutputAvailable(_, v) => Valid(v)
    case ReasoningDelta(v) => Valid(v)
    case _ => true
  }

  lemma FrameSendable(ids: Ids, f: Frame)
    requires Carries(f)
    ensures Sendable(FrameObject(ids, f)) && (FrameObject(ids, f).None? <==> f == Done)
  {
  }

  /** An object is valid exactly when its last value is, if the others are text or null. */
  lemma LastValue(fields: seq<Field>)
    requires fields != [] && forall i | 0 <= i < |fields| - 1 :: fields[i].val.JStr? || fields[i].val.JNull?
    ensures Valid(JObj(fields)) <==> Valid(fields[|fields| - 1].val)
    ensures fields[|fields| - 1].val.JStr? ==> Valid(JObj(fields))
  {
  }

  lemma FrameReadable(ids: Ids, f: Frame)
    ensures Readable(FrameObject(ids, f)) <==> Finite(f)
  {
    if f != Done {
      var o := FrameObject(ids, f).value;
      LastValue(o.fields);
      assert Valid(o) == Valid(JObj(o.fields));
    }
  }

  ghost predicate AllFinite(fs: seq<Frame>) {
    forall i | 0 <= i < |fs| :: Finite(fs[i])
  }

  /** A response that was sent to its end: the terminator after frames that can be written. */
  ghost predicate Complete(fs: seq<Frame>) {
    fs != [] && fs[|fs| - 1] == Done && forall i | 0 <= i < |fs| - 1 :: fs[i] != Done && Carries(fs[i])
  }

  lemma ObjectsSendable(ids: Ids, frames: seq<Frame>)
    requires Complete(frames)
    ensures var objects := Objects(ids, frames);
      && (forall i | 0 <= i < |objects| :: Sendable(objects[i]))
      && objects != [] && objects[|objects| - 1].None? && forall i | 0 <= i < |objects| - 1 :: objects[i].Some?
  {
    forall i | 0 <= i < |frames| ensures Sendable(FrameObject(ids, frames[i])) { FrameSendable(ids, frames[i]); }
  }

  lemma FiniteReadable(ids: Ids, frames: seq<Frame>)
    ensures AllFinite(frames) <==> forall i | 0 <= i < |Objects(ids, frames)| :: Readable(Objects(ids, frames)[i])
  {
    var objects := Objects(ids, frames);
    forall i | 0 <= i < |frames| ensures Readable(objects[i]) <==> Finite(frames[i]) { FrameReadable(ids, frames[i]); }
  }

  /**
   Reading the wire gives back the readable objects, in order, and then the terminator; that is everything that was sent
   exactly when all numbers in it are finite.
   */
  lemma WireRoundTrip(ids: Ids, frames: seq<Frame>)
    requires Complete(frames)
    ensures var objects := Objects(ids, frames);
      && Decode(ReadEvents(Wire(objects), "")) == ReadableOf(objects)
      && (ReadableOf(objects) == objects <==> AllFinite(frames))
  {
    var objects := Objects(ids, frames);
    ObjectsSendable(ids, frames);
    WireRead(objects);
    DecodePayloads(objects);
    ReadableAll(objects);
    FiniteReadable(ids, frames);
  }

  /** Different frames of one response are sent as different objects. */
  lemma FramesDistinct(ids: Ids, f: Frame, g: Frame)
    requires FrameObject(ids, f) == FrameObject(ids, g)
    ensures f == g
  {
  }

  /** The text on the wire determines the frames, if all their numbers are finite. */
  lemma WireDetermines(ids: Ids, xs: seq<Frame>, ys: seq<Frame>)
    requires Complete(xs) && AllFinite(xs) && Complete(ys) && AllFinite(ys)
    requires Wire(Objects(ids, xs)) == Wire(Objects(ids, ys))
    ensures xs == ys
  {
    WireRoundTrip(ids, xs);
    WireRoundTrip(ids, ys);
    ObjectsDetermine(ids, xs, ys);
  }

  lemma ObjectsDetermine(ids: Ids, xs: seq<Frame>, ys: seq<Frame>)
    requires Objects(ids, xs) == Objects(ids, ys)
    ensures xs == ys
  {
    assert |xs| == |Objects(ids, xs)| == |ys|;
    forall i | 0 <= i < |xs| ensures xs[i] == ys[i] {
      assert Objects(ids, xs)[i] == Objects(ids, ys)[i];
      FramesDistinct(ids, xs[i], ys[i]);
    }
  }

  // ---- what a client makes of an object ----

  /** The value of the first field with this key. */
  function Lookup(fields: seq<Field>, key: string): Option<Json> {
    if fields == [] then None else if fields[0].key == key then Some(fields[0].val) else Lookup(fields[1..], key)
  }

  function TextAt(fields: seq<Field>, key: string): Option<string> {
    match Lookup(fields, key)
    case Some(JStr(s)) => Some(s)
    case _ => None
  }

  /** The frame that fields stand for, by their keys, whatever their order. */
  function FrameOf(fields: seq<Field>): Option<Frame> {
    match TextAt(fields, "type")
    case None => None
    case Some(t) =>
      if t == "start" then Some(Start)
      else if t == "start-step" then Some(StartStep)
      else if t == "reasoning-start" then Some(ReasoningStart)
      else if t == "reasoning-end" then Some(ReasoningEnd)
      else if t == "text-start" then Some(TextStart)
      else if t == "finish" then
        (match TextAt(fields, "finishReason")
         case Some(reason) => if reason == "stop" then Some(Finish(Stop)) else Some(Finish(Cancel))
         case None => None)
      else if t == "text-delta" then
        (match TextAt(fields, "delta") case Some(s) => Some(TextDelta(s)) case None => None)
      else if t == "error" then
        (match TextAt(fields, "error") case Some(s) => Some(Error(s)) case None => None)
      else if t == "reasoning-delta" then
        (match Lookup(fields, "delta") case Some(v) => Some(ReasoningDelta(v)) case None => None)
      else ToolFrameOf(t, fields)
  }

  function ToolFrameOf(t: string, fields: seq<Field>): Option<Frame> {
    match (Lookup(fields, "toolCallId"), TextAt(fields, "toolName"), Lookup(fields, "input"), Lookup(fields, "output"))
    case (Some(JNull), Some(name), None, None) =>
      if t == "tool-input-start" then Some(ToolInputStart(None, name)) else None
    case (Some(JStr(id)), Some(name), None, None) =>
      if t == "tool-input-start" then Some(ToolInputStart(Some(id), name)) else None
    case (Some(JStr(id)), Some(name), Some(v), None) =>
      if t == "tool-input-available" && id == name then Some(ToolInputAvailable(name, v)) else None
    case (Some(JStr(id)), None, None, Some(v)) =>
      if t == "tool-output-available" then Some(ToolOutputAvailable(id, v)) else None
    case _ => None
  }

  lemma LookupAt(fields: seq<Field>, k: nat)
    requires k < |fields| && forall j | 0 <= j < k :: fields[j].key != fields[k].key
    ensures Lookup(fields, fields[k].key) == Some(fields[k].val)
  {
    if k > 0 { LookupAt(fields[1..], k - 1); }
  }

  lemma NoLookup(fields: seq<Field>, key: string)
    requires forall j | 0 <= j < |fields| :: fields[j].key != key
    ensures Lookup(fields, key).None?
  {
  }

  /** Every frame is read back from its object, and the parts of one message carry its ids. */
  lemma FrameRead(ids: Ids, f: Frame)
    requires f != Done
    ensures FrameOf(FrameObject(ids, f).value.fields) == Some(f)
    ensures var fields := FrameObject(ids, f).value.fields;
      && (f.Start? ==> TextAt(fields, "messageId") == Some(ids.message))
      && (f.TextStart? || f.TextDelta? ==> TextAt(fields, "id") == Some(ids.text))
      && (f.ReasoningStart? || f.ReasoningDelta? || f.ReasoningEnd? ==> TextAt(fields, "id") == Some(ids.reason))
  {
    if IsToolFrame(f) { ToolFrameRead(ids, f); } else { PlainFrameRead(ids, f); }
    var fields := FrameObject(ids, f).value.fields;
    if |fields| > 1 { LookupAt(fields, 1); }
  }

  lemma PlainFrameRead(ids: Ids, f: Frame)
    requires f != Done && !IsToolFrame(f)
    ensures FrameOf(FrameObject(ids, f).value.fields) == Some(f)
  {
    var fields := FrameObject(ids, f).value.fields;
    LookupAt(fields, 0);
    if |fields| > 1 { LookupAt(fields, 1); }
    if |fields| > 2 { LookupAt(fields, 2); }
  }

  predicate IsToolFrame(f: Frame) {
    f.ToolInputStart? || f.ToolInputAvailable? || f.ToolOutputAvailable?
  }

  lemma ToolFrameRead(ids: Ids, f: Frame)
    requires IsToolFrame(f)
    ensures FrameOf(FrameObject(ids, f).value.fields) == Some(f)
  {
    var fields := FrameObject(ids, f).value.fields;
    var t := fields[0].val.s;
    LookupAt(fields, 0);
    ToolPartsRead(ids, f, t);
    assert FrameOf(fields) == ToolFrameOf(t, fields);
  }

  lemma ToolPartsRead(ids: Ids, f: Frame, t: string)
    requires IsToolFrame(f) && t == FrameObject(ids, f).value.fields[0].val.s
    ensures ToolFrameOf(t, FrameObject(ids, f).value.fields) == Some(f)
  {
    var fields := FrameObject(ids, f).value.fields;
    LookupAt(fields, 1);
    LookupAt(fields, 2);
    match f
    case ToolInputStart(_, _) =>
      NoLookup(fields, "input");
      NoLookup(fields, "output");
    case ToolInputAvailable(_, _) =>
      LookupAt(fields, 3);
      NoLookup(fields, "output");
    case ToolOutputAvailable(_, _) =>
      NoLookup(fields, "toolName");
      NoLookup(fields, "input");
  }

  // ---- a whole response on the wire ----

  /** Every value an event passes on can be written; otherwise it is `Unserializable`. */
  predicate EventCarries(e: GraphEvent) {
    match e
    case ToolStart(_, Jsonable(v)) => Written(v)
    case ToolEnd(_, Jsonable(v)) => Written(v)
    case Custom(Dict(Jsonable(v))) => Written(v)
    case _ => true
  }

  ghost predicate AllCarry(fs: seq<Frame>) {
    forall i | 0 <= i < |fs| :: Carries(fs[i])
  }

  lemma {:induction false} EmitAllCarry(g: Gen, es: seq<Event>)
    requires AllCarry(g.out)
    ensures AllCarry(EmitAll(g, es).out)
    decreases |es|
  {
    if es == [] {
    } else {
      EmitAllCarry(Emit(g, es[0]), es[1..]);
    }
  }

  lemma HandleCarries(g: Gen, e: GraphEvent)
    requires AllCarry(g.out) && EventCarries(e)
    ensures AllCarry(Handle(g, e).g.out)
  {
    if ChatTheorems.EventText(e) != "" {
      var r := Scan(g.st.buffer + e.content.s, g.st.inThink);
      EmitAllCarry(g.(st := r.rest, log := g.log + r.segs), Events(r.segs));
    } else if e == ChainEnd(true) {
      EmitAllCarry(g.(st := State("", g.st.inThink), log := g.log + FlushLog(g.st)), FlushEvents(g.st));
    }
  }

  lemma {:induction false} IterateCarries(g: Gen, es: seq<GraphEvent>, ending: Ending)
    requires AllCarry(g.out) && forall i | 0 <= i < |es| :: EventCarries(es[i])
    ensures AllCarry(Iterate(g, es, ending).0.out)
    decreases |es|
  {
    if es == [] {
    } else {
      HandleCarries(g, es[0]);
      if Handle(g, es[0]).raised.None? { IterateCarries(Handle(g, es[0]).g, es[1..], ending); }
    }
  }

  /** A complete response is the terminator after frames that can be written. */
  lemma FramesSent(es: seq<GraphEvent>, ending: Ending)
    requires forall i | 0 <= i < |es| :: EventCarries(es[i])
    ensures var (g, end) := Iterate(BEGIN, es, ending);
      Complete(g.out + Closing(end))
  {
    ChatTheorems.EveryRun(es, ending);
    IterateCarries(BEGIN, es, ending);
    var (g, end) := Iterate(BEGIN, es, ending);
    assert AllCarry(g.out + Closing(end));
  }

  /**
   On every run a client that reads a complete response gets every frame the generator yielded, in order, if and only if
   no tool input, tool output or custom event carries a non-finite number; otherwise it gets all frames but those.
   */
  lemma ResponseRoundTrip(ids: Ids, es: seq<GraphEvent>, ending: Ending)
    requires forall i | 0 <= i < |es| :: EventCarries(es[i])
    ensures var (g, end) := Iterate(BEGIN, es, ending);
      var frames := g.out + Closing(end);
      var received := Decode(ReadEvents(Wire(Objects(ids, frames)), ""));
      && received == ReadableOf(Objects(ids, frames))
      && (received == Objects(ids, frames) <==> AllFinite(frames))
  {
    FramesSent(es, ending);
    var (g, end) := Iterate(BEGIN, es, ending);
    WireRoundTrip(ids, g.out + Closing(end));
  }

  const BAD_OUTPUT := ToolOutputAvailable("t", JNum("NaN"))

  lemma NonFiniteRun()
    ensures var (g, end) := Iterate(BEGIN, [ToolEnd("t", Jsonable(JNum("NaN")))], Exhausted);
      g.out + Closing(end) == [Start, StartStep, BAD_OUTPUT, Done]
  {
    var es := [ToolEnd("t", Jsonable(JNum("NaN")))];
    assert es[1..] == [];
  }

  lemma NonFiniteReceived(ids: Ids)
    ensures var objects := Objects(ids, [Start, StartStep, BAD_OUTPUT, Done]);
      ReadableOf(objects) == [FrameObject(ids, Start), FrameObject(ids, StartStep), None]
  {
    FrameReadable(ids, Start);
    FrameReadable(ids, StartStep);
    FrameReadable(ids, BAD_OUTPUT);
    ReadableOnly(Objects(ids, [Start, StartStep, BAD_OUTPUT, Done]));
  }

  lemma ReadableOnly(objects: seq<Option<Json>>)
    requires |objects| == 4 && forall i | 0 <= i < 4 :: Readable(objects[i]) <==> i != 2
    ensures ReadableOf(objects) == [objects[0], objects[1], objects[3]]
  {
    var o1, o2, o3 := objects[1..], objects[2..], objects[3..];
    assert o1[1..] == o2 && o2[1..] == o3 && o3[1..] == [];
    assert ReadableOf(o3) == [objects[3]];
    assert ReadableOf(o2) == ReadableOf(o3);
    assert ReadableOf(o1) == [objects[1]] + ReadableOf(o2);
  }

  /** A tool whose output is not a number: the client sees the response begin and end, and nothing of the output. */
  lemma NonFiniteExample(ids: Ids)
    ensures var (g, end) := Iterate(BEGIN, [ToolEnd("t", Jsonable(JNum("NaN")))], Exhausted);
      var frames := g.out + Closing(end);
      && frames == [Start, StartStep, BAD_OUTPUT, Done]
      && Decode(ReadEvents(Wire(Objects(ids, frames)), ""))
         == [FrameObject(ids, Start), FrameObject(ids, StartStep), None]
  {
    NonFiniteRun();
    NonFiniteReceived(ids);
    ResponseRoundTrip(ids, [ToolEnd("t", Jsonable(JNum("NaN")))], Exhausted);
  }

  /** The client's own view of a response whose numbers are finite: every frame the generator yielded, in order. */
  lemma ClientSees(ids: Ids, es: seq<GraphEvent>, ending: Ending)
    requires forall i | 0 <= i < |es| :: EventCarries(es[i])
    requires var (g, end) := Iterate(BEGIN, es, ending); AllFinite(g.out + Closing(end))
    ensures var (g, end) := Iterate(BEGIN, es, ending);
      Understood(Decode(ReadEvents(Wire(Objects(ids, g.out + Closing(end))), "")), g.out + Closing(end))
  {
    FramesSent(es, ending);
    ResponseRoundTrip(ids, es, ending);
    var (g, end) := Iterate(BEGIN, es, ending);
    ObjectsUnderstood(ids, g.out + Closing(end));
  }

  ghost predicate Understood(received: seq<Option<Json>>, frames: seq<Frame>) {
    && |received| == |frames|
    && forall i | 0 <= i < |frames| ::
         if frames[i] == Done then received[i].None?
         else received[i].Some? && received[i].value.JObj? && FrameOf(received[i].value.fields) == Some(frames[i])
  }

  lemma ObjectsUnderstood(ids: Ids, frames: seq<Frame>)
    ensures Understood(Objects(ids, frames), frames)
  {
    forall i | 0 <= i < |frames| && frames[i] != Done
      ensures var o := FrameObject(ids, frames[i]).value; o.JObj? && FrameOf(o.fields) == Some(frames[i])
    {
      FrameRead(ids, frames[i]);
    }
  }
}
