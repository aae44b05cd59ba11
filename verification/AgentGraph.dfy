/**
 The agent workflow over any number of turns: analyze, plan, execute when the plan asks for tools, respond. Model and
 tool results are whatever the outside world returns; message ids are those of the `add_messages` reducer.
 */
module AgentGraph {
  import opened Common

  datatype ToolCall = ToolCall(id: string, name: string)

  datatype Message =
    | System(content: string)
    | Human(content: string)
    | AI(content: string, calls: seq<ToolCall>)
    | Tool(content: string, callId: string)

  datatype Entry = Entry(id: nat, msg: Message)

  // ---- the reducer ----

  function IndexOf(es: seq<Entry>, id: nat): (i: nat)
    ensures i <= |es| && (i < |es| ==> es[i].id == id) && forall j | 0 <= j < i :: es[j].id != id
  {
    if es == [] || es[0].id == id then 0 else 1 + IndexOf(es[1..], id)
  }

  /** A message with a known id replaces the old one; others are appended. */
  function AddMessages(es: seq<Entry>, added: seq<Entry>): seq<Entry>
    decreases |added|
  {
    if added == [] then es
    else
      var e := added[0];
      var i := IndexOf(es, e.id);
      AddMessages(if i < |es| then es[i := e] else es + [e], added[1..])
  }

  predicate FreshIds(es: seq<Entry>, added: seq<Entry>) {
    && (forall i, j | 0 <= i < |es| && 0 <= j < |added| :: es[i].id != added[j].id)
    && (forall i, j | 0 <= i < j < |added| :: added[i].id != added[j].id)
  }

  lemma {:induction false} FreshAppends(es: seq<Entry>, added: seq<Entry>)
    requires FreshIds(es, added)
    ensures AddMessages(es, added) == es + added
    decreases |added|
  {
    if added == [] {
      assert es + added == es;
    } else {
      assert IndexOf(es, added[0].id) == |es|;
      FreshAppends(es + [added[0]], added[1..]);
      assert es + [added[0]] + added[1..] == es + added;
    }
  }

  predicate DistinctIds(es: seq<Entry>) {
    forall i, j | 0 <= i < j < |es| :: es[i].id != es[j].id
  }

  /** The last of the added entries with this id. */
  function LastWith(added: seq<Entry>, id: nat): (last: Option<Entry>)
    ensures last.Some? ==> last.value.id == id
  {
    if added == [] then None
    else if added[|added| - 1].id == id then Some(added[|added| - 1])
    else LastWith(added[..|added| - 1], id)
  }

  predicate HasId(es: seq<Entry>, id: nat) {
    exists i :: 0 <= i < |es| && es[i].id == id
  }

  lemma {:induction false} LastWithFirst(e: Entry, rest: seq<Entry>, id: nat)
    ensures LastWith([e] + rest, id) == if LastWith(rest, id).Some? then LastWith(rest, id)
                                        else if e.id == id then Some(e) else None
  {
    var all := [e] + rest;
    if rest == [] {
      assert all[..0] == [];
    } else {
      assert all[..|all| - 1] == [e] + rest[..|rest| - 1];
      LastWithFirst(e, rest[..|rest| - 1], id);
    }
  }

  /** `e`, or what replaces it: the last entry added under its id. */
  function Latest(added: seq<Entry>, e: Entry): Entry {
    if LastWith(added, e.id).Some? then LastWith(added, e.id).value else e
  }

  /** The old entries keep their places, the others are new ids, and every entry is the latest of its id. */
  ghost predicate Reduced(es: seq<Entry>, added: seq<Entry>, r: seq<Entry>) {
    && DistinctIds(r) && |es| <= |r|
    && (forall k | 0 <= k < |es| :: r[k] == Latest(added, es[k]))
    && (forall k | |es| <= k < |r| :: !HasId(es, r[k].id) && LastWith(added, r[k].id) == Some(r[k]))
  }

  lemma LatestStep(e: Entry, rest: seq<Entry>, x: Entry)
    ensures x.id == e.id ==> Latest([e] + rest, x) == Latest(rest, e)
    ensures x.id != e.id ==> Latest([e] + rest, x) == Latest(rest, x)
    ensures LastWith([e] + rest, e.id) == Some(Latest(rest, e))
    ensures LastWith(rest, x.id).Some? ==> LastWith([e] + rest, x.id) == LastWith(rest, x.id)
  {
    LastWithFirst(e, rest, x.id);
    LastWithFirst(e, rest, e.id);
  }

  lemma IdsKept(es: seq<Entry>, next: seq<Entry>)
    requires |es| <= |next| && forall j | 0 <= j < |es| :: next[j].id == es[j].id
    ensures forall id | HasId(es, id) :: HasId(next, id)
  {
    forall id | HasId(es, id) ensures HasId(next, id) {
      var j :| 0 <= j < |es| && es[j].id == id;
      assert next[j].id == id;
    }
  }

  lemma ReplacedFirst(es: seq<Entry>, e: Entry, i: nat, rest: seq<Entry>, r: seq<Entry>)
    requires DistinctIds(es) && i < |es| && es[i].id == e.id && Reduced(es[i := e], rest, r)
    ensures Reduced(es, [e] + rest, r)
  {
    IdsKept(es, es[i := e]);
    forall k | 0 <= k < |es| ensures r[k] == Latest([e] + rest, es[k]) { LatestStep(e, rest, es[k]); }
    forall k | |es| <= k < |r| ensures !HasId(es, r[k].id) && LastWith([e] + rest, r[k].id) == Some(r[k]) {
      LatestStep(e, rest, r[k]);
    }
  }

  lemma AppendedFirst(es: seq<Entry>, e: Entry, rest: seq<Entry>, r: seq<Entry>)
    requires !HasId(es, e.id) && Reduced(es + [e], rest, r)
    ensures Reduced(es, [e] + rest, r)
  {
    var next := es + [e];
    IdsKept(es, next);
    forall k | 0 <= k < |es| ensures r[k] == Latest([e] + rest, es[k]) {
      LatestStep(e, rest, es[k]);
      assert next[k] == es[k];
    }
    forall k | |es| <= k < |r| ensures !HasId(es, r[k].id) && LastWith([e] + rest, r[k].id) == Some(r[k]) {
      LatestStep(e, rest, r[k]);
      assert next[|es|] == e;
    }
  }

  /**
   What the reducer does, whatever ids are added: no id occurs twice, the old entries keep their places, each holding
   the last message added under its id or its own if there is none, and the others hold the last message of a new id.
   */
  lemma {:induction false} ReducerExact(es: seq<Entry>, added: seq<Entry>)
    requires DistinctIds(es)
    ensures Reduced(es, added, AddMessages(es, added))
    decreases |added|
  {
    if added != [] {
      var e, rest := added[0], added[1..];
      var i := IndexOf(es, e.id);
      assert [e] + rest == added;
      if i < |es| {
        ReducerExact(es[i := e], rest);
        ReplacedFirst(es, e, i, rest, AddMessages(es[i := e], rest));
      } else {
        ReducerExact(es + [e], rest);
        AppendedFirst(es, e, rest, AddMessages(es + [e], rest));
      }
    }
  }

  /** Every id added is there afterwards. */
  lemma ReducerComplete(es: seq<Entry>, added: seq<Entry>, j: nat)
    requires DistinctIds(es) && j < |added|
    ensures HasId(AddMessages(es, added), added[j].id)
    decreases |added|
  {
    var e, rest := added[0], added[1..];
    var i := IndexOf(es, e.id);
    var next := if i < |es| then es[i := e] else es + [e];
    if j == 0 {
      ReducerExact(next, rest);
      assert next[i] == e && AddMessages(next, rest)[i].id == e.id;
    } else {
      ReducerComplete(next, rest, j - 1);
    }
  }

  // ---- tool calls and their answers ----

  /** The messages start with one answer per call, in order. */
  predicate Answers(ms: seq<Message>, calls: seq<ToolCall>) {
    |calls| <= |ms| && forall j | 0 <= j < |calls| :: ms[j].Tool? && ms[j].callId == calls[j].id
  }

  /** How many messages a message and its answers take. */
  function Span(m: Message): nat {
    if m.AI? then 1 + |m.calls| else 1
  }

  /** Every message with tool calls is followed immediately by their answers, and no other tool messages occur. */
  predicate Paired(ms: seq<Message>)
    decreases |ms|
  {
    ms != [] ==>
      && !ms[0].Tool?
      && (ms[0].AI? ==> Answers(ms[1..], ms[0].calls))
      && Paired(ms[Span(ms[0])..])
  }

  ghost predicate CallsAnswered(ms: seq<Message>) {
    forall i | 0 <= i < |ms| && ms[i].AI? :: Answers(ms[i + 1..], ms[i].calls)
  }

  /** The message `i` asks for the tool message `j`. */
  predicate Asks(ms: seq<Message>, i: nat, j: nat) {
    i < j < |ms| && ms[i].AI? && j <= i + |ms[i].calls|
  }

  ghost predicate Asked(ms: seq<Message>, j: nat) {
    exists i: nat :: Asks(ms, i, j)
  }

  ghost predicate AnswersAsked(ms: seq<Message>) {
    forall j: nat | j < |ms| && ms[j].Tool? :: Asked(ms, j)
  }

  /** The first message, its answers, and the rest. */
  ghost predicate Headed(ms: seq<Message>, rest: seq<Message>) {
    && ms != [] && !ms[0].Tool? && Span(ms[0]) <= |ms| && rest == ms[Span(ms[0])..]
    && (forall i | 1 <= i < Span(ms[0]) :: ms[i].Tool?)
  }

  lemma Tail(ms: seq<Message>, d: nat, i: nat)
    requires d <= |ms| && i < |ms| - d
    ensures ms[d..][i] == ms[d + i] && ms[d..][i + 1..] == ms[d + i + 1..]
  {
  }

  lemma AnswersHead(ms: seq<Message>)
    requires ms != [] && !ms[0].Tool? && (ms[0].AI? ==> Answers(ms[1..], ms[0].calls))
    ensures Headed(ms, ms[Span(ms[0])..])
  {
    assert forall i | 1 <= i < Span(ms[0]) :: ms[i] == ms[1..][i - 1];
  }

  lemma CallsShift(ms: seq<Message>, rest: seq<Message>)
    requires Headed(ms, rest) && (ms[0].AI? ==> Answers(ms[1..], ms[0].calls))
    ensures CallsAnswered(ms) <==> CallsAnswered(rest)
  {
    var d := Span(ms[0]);
    if CallsAnswered(rest) {
      forall i | 0 <= i < |ms| && ms[i].AI? ensures Answers(ms[i + 1..], ms[i].calls) {
        if i > 0 { Tail(ms, d, i - d); }
      }
    }
    if CallsAnswered(ms) {
      forall i | 0 <= i < |rest| && rest[i].AI? ensures Answers(rest[i + 1..], rest[i].calls) {
        Tail(ms, d, i);
      }
    }
  }

  lemma AskedThere(ms: seq<Message>, rest: seq<Message>, j: nat)
    requires Headed(ms, rest)
    ensures Asked(ms, j + Span(ms[0])) <==> Asked(rest, j)
  {
    var d := Span(ms[0]);
    if Asked(rest, j) {
      var i: nat :| Asks(rest, i, j);
      assert Asks(ms, i + d, j + d);
    }
    if Asked(ms, j + d) {
      var i: nat :| Asks(ms, i, j + d);
      assert i >= d;
      assert Asks(rest, i - d, j);
    }
  }

  lemma AskedShift(ms: seq<Message>, rest: seq<Message>)
    requires Headed(ms, rest)
    ensures AnswersAsked(ms) <==> AnswersAsked(rest)
  {
    var d := Span(ms[0]);
    if AnswersAsked(rest) {
      forall j: nat | j < |ms| && ms[j].Tool? ensures Asked(ms, j) {
        if j < d {
          assert Asks(ms, 0, j);
        } else {
          assert rest[j - d] == ms[j];
          AskedThere(ms, rest, j - d);
        }
      }
    }
    if AnswersAsked(ms) {
      forall j: nat | j < |rest| && rest[j].Tool? ensures Asked(rest, j) {
        assert ms[j + d] == rest[j];
        AskedThere(ms, rest, j);
      }
    }
  }

  lemma FirstNotTool(ms: seq<Message>)
    requires ms != [] && AnswersAsked(ms)
    ensures !ms[0].Tool?
  {
    assert !Asked(ms, 0);
  }

  lemma FirstAnswered(ms: seq<Message>)
    requires ms != [] && CallsAnswered(ms) && ms[0].AI?
    ensures Answers(ms[1..], ms[0].calls)
  {
    assert ms[0 + 1..] == ms[1..];
  }

  /** The pairing position by position: every call is answered in place, and every tool message is such an answer. */
  lemma {:induction false} PairedExact(ms: seq<Message>)
    ensures Paired(ms) <==> CallsAnswered(ms) && AnswersAsked(ms)
    decreases |ms|
  {
    if ms == [] {
    } else {
      if CallsAnswered(ms) && AnswersAsked(ms) {
        FirstNotTool(ms);
        if ms[0].AI? { FirstAnswered(ms); }
      }
      if !ms[0].Tool? && (ms[0].AI? ==> Answers(ms[1..], ms[0].calls)) {
        var rest := ms[Span(ms[0])..];
        AnswersHead(ms);
        PairedExact(rest);
        CallsShift(ms, rest);
        AskedShift(ms, rest);
      }
    }
  }

  lemma {:induction false} PairedConcat(x: seq<Message>, y: seq<Message>)
    requires Paired(x) && Paired(y)
    ensures Paired(x + y)
    decreases |x|
  {
    if x == [] {
      assert x + y == y;
    } else {
      var d := Span(x[0]);
      assert (x + y)[0] == x[0] && (x + y)[d..] == x[d..] + y;
      if x[0].AI? { AnswersLonger(x[1..], (x + y)[1..], x[0].calls); }
      PairedConcat(x[d..], y);
    }
  }

  lemma AnswersLonger(x: seq<Message>, longer: seq<Message>, calls: seq<ToolCall>)
    requires Answers(x, calls) && x <= longer
    ensures Answers(longer, calls)
  {
    assert forall j | 0 <= j < |x| :: longer[j] == x[j];
  }

  /** No tool messages and no calls. */
  predicate Plain(ms: seq<Message>) {
    forall i | 0 <= i < |ms| :: !ms[i].Tool? && (ms[i].AI? ==> ms[i].calls == [])
  }

  lemma {:induction false} PlainPaired(ms: seq<Message>)
    requires Plain(ms)
    ensures Paired(ms)
  {
    if ms == [] {
    } else {
      PlainPaired(ms[1..]);
    }
  }

  // ---- sanitizing for the model ----

  function Systems(ms: seq<Message>): seq<Message> {
    if ms == [] then [] else (if ms[0].System? then [ms[0]] else []) + Systems(ms[1..])
  }

  function NonSystem(ms: seq<Message>): seq<Message> {
    if ms == [] then [] else (if ms[0].System? then [] else [ms[0]]) + NonSystem(ms[1..])
  }

  /** `"\n".join` of the contents. */
  function Merged(ms: seq<Message>): string {
    if ms == [] then "" else if |ms| == 1 then ms[0].content else ms[0].content + "\n" + Merged(ms[1..])
  }

  function Sanitized(ms: seq<Message>): seq<Message> {
    if Systems(ms) == [] then ms else [System(Merged(Systems(ms)))] + NonSystem(ms)
  }

  lemma HeadOfSnoc(ms: seq<Message>, m: Message)
    requires ms != []
    ensures (ms + [m])[0] == ms[0] && (ms + [m])[1..] == ms[1..] + [m]
  {
  }

  lemma {:induction false} SystemsSnoc(ms: seq<Message>, m: Message)
    ensures Systems(ms + [m]) == Systems(ms) + if m.System? then [m] else []
  {
    if ms == [] {
      assert [m][1..] == [] && ms + [m] == [m];
    } else {
      HeadOfSnoc(ms, m);
      SystemsSnoc(ms[1..], m);
      Assoc(if ms[0].System? then [ms[0]] else [], Systems(ms[1..]), if m.System? then [m] else []);
    }
  }

  lemma {:induction false} NonSystemSnoc(ms: seq<Message>, m: Message)
    ensures NonSystem(ms + [m]) == NonSystem(ms) + if m.System? then [] else [m]
  {
    if ms == [] {
      assert [m][1..] == [] && ms + [m] == [m];
    } else {
      HeadOfSnoc(ms, m);
      NonSystemSnoc(ms[1..], m);
      Assoc(if ms[0].System? then [] else [ms[0]], NonSystem(ms[1..]), if m.System? then [] else [m]);
    }
  }

  method SanitizeMessages(messages: seq<Message>) returns (r: seq<Message>)
    ensures r == Sanitized(messages)
    ensures (forall i | 0 <= i < |messages| :: !messages[i].System?) ==> r == messages
    ensures (exists i :: 0 <= i < |messages| && messages[i].System?) ==>
      exists system, others :: Selected(messages, true, system) && Selected(messages, false, others)
                               && r == [System(Merged(system))] + others
  {
    SelectedExact(messages);
    NoneSelected(messages, Systems(messages));
    var systemMsgs: seq<Message>, nonSystemMsgs: seq<Message> := [], [];
    for i := 0 to |messages|
      invariant systemMsgs == Systems(messages[..i]) && nonSystemMsgs == NonSystem(messages[..i])
    {
      assert messages[..i + 1] == messages[..i] + [messages[i]];
      SystemsSnoc(messages[..i], messages[i]);
      NonSystemSnoc(messages[..i], messages[i]);
      if messages[i].System? {
        systemMsgs := systemMsgs + [messages[i]];
      } else {
        nonSystemMsgs := nonSystemMsgs + [messages[i]];
      }
    }
    assert messages[..|messages|] == messages;
    if systemMsgs == [] {
      return messages;
    }
    return [System(Merged(systemMsgs))] + nonSystemMsgs;
  }

  lemma NoneSelected(ms: seq<Message>, r: seq<Message>)
    requires Selected(ms, true, r)
    ensures r == [] <==> forall i | 0 <= i < |ms| :: !ms[i].System?
  {
    var at: seq<nat> :| Positions(ms, true, at) && r == Pick(ms, at);
    if r != [] { assert ms[at[0]].System?; }
    if i :| 0 <= i < |ms| && ms[i].System? { assert i in at; }
  }

  lemma {:induction false} NonSystemIs(ms: seq<Message>)
    ensures Systems(NonSystem(ms)) == [] && NonSystem(NonSystem(ms)) == NonSystem(ms)
    ensures forall i | 0 <= i < |NonSystem(ms)| :: !NonSystem(ms)[i].System?
    ensures Systems(ms) == [] ==> NonSystem(ms) == ms
  {
    if ms == [] {
    } else {
      NonSystemIs(ms[1..]);
      var ns, rest := NonSystem(ms), NonSystem(ms[1..]);
      if ms[0].System? {
        assert ns == rest;
      } else {
        assert ns[0] == ms[0] && ns[1..] == rest;
        assert Systems(ns) == [] + Systems(rest) == [];
        assert NonSystem(ns) == [ms[0]] + NonSystem(rest);
        assert [ms[0]] + ms[1..] == ms;
      }
    }
  }

  /** `at` lists, in order, the positions of the system messages, or of the others. */
  predicate Positions(ms: seq<Message>, system: bool, at: seq<nat>) {
    && (forall k | 0 <= k < |at| :: at[k] < |ms| && ms[at[k]].System? == system)
    && (forall k, l | 0 <= k < l < |at| :: at[k] < at[l])
    && (forall n: nat | n < |ms| && ms[n].System? == system :: n in at)
  }

  ghost predicate Selected(ms: seq<Message>, system: bool, r: seq<Message>) {
    exists at: seq<nat> :: Positions(ms, system, at) && r == Pick(ms, at)
  }

  function Pick(ms: seq<Message>, at: seq<nat>): seq<Message>
    requires forall k | 0 <= k < |at| :: at[k] < |ms|
  {
    seq(|at|, k requires 0 <= k < |at| => ms[at[k]])
  }

  lemma SelectedSnoc(ms: seq<Message>, m: Message, system: bool, r: seq<Message>)
    requires Selected(ms, system, r)
    ensures Selected(ms + [m], system, r + if m.System? == system then [m] else [])
  {
    var at: seq<nat> :| Positions(ms, system, at) && r == Pick(ms, at);
    var all := ms + [m];
    if m.System? == system {
      PositionsMore(ms, m, system, at);
      assert Pick(all, at + [|ms|]) == r + [m];
    } else {
      PositionsSame(ms, m, system, at);
      assert Pick(all, at) == r + [];
    }
  }

  lemma PositionsSame(ms: seq<Message>, m: Message, system: bool, at: seq<nat>)
    requires Positions(ms, system, at) && m.System? != system
    ensures Positions(ms + [m], system, at)
  {
    forall n: nat | n < |ms| + 1 && (ms + [m])[n].System? == system ensures n in at {
      assert n < |ms| && ms[n].System? == system;
    }
  }

  lemma PositionsMore(ms: seq<Message>, m: Message, system: bool, at: seq<nat>)
    requires Positions(ms, system, at) && m.System? == system
    ensures Positions(ms + [m], system, at + [|ms|])
  {
    forall n: nat | n < |ms| + 1 && (ms + [m])[n].System? == system ensures n in at + [|ms|] {
      if n < |ms| { assert ms[n].System? == system && n in at; }
    }
  }

  /** Both parts keep their messages and their order, and every message is in one of them. */
  lemma {:induction false} SelectedExact(ms: seq<Message>)
    ensures Selected(ms, true, Systems(ms)) && Selected(ms, false, NonSystem(ms))
  {
    if ms == [] {
      var at: seq<nat> := [];
      assert Positions(ms, true, at) && Positions(ms, false, at) && Pick(ms, at) == [];
    } else {
      var e := |ms| - 1;
      SelectedExact(ms[..e]);
      SelectedSnoc(ms[..e], ms[e], true, Systems(ms[..e]));
      SelectedSnoc(ms[..e], ms[e], false, NonSystem(ms[..e]));
      SystemsSnoc(ms[..e], ms[e]);
      NonSystemSnoc(ms[..e], ms[e]);
      assert ms[..e] + [ms[e]] == ms;
    }
  }

  /** The merged text: one message is its content, and wherever it is cut, a line break stands between the parts. */
  lemma {:induction false} MergedConcat(x: seq<Message>, y: seq<Message>)
    requires x != [] && y != []
    ensures Merged(x + y) == Merged(x) + "\n" + Merged(y)
    ensures |x| == 1 ==> Merged(x) == x[0].content
  {
    assert (x + y)[0] == x[0] && (x + y)[1..] == x[1..] + y;
    if |x| == 1 {
      assert x[1..] + y == y;
    } else {
      MergedConcat(x[1..], y);
      Assoc(x[0].content + "\n", Merged(x[1..]), "\n" + Merged(y));
      Assoc(Merged(x[1..]), "\n", Merged(y));
      Assoc(Merged(x), "\n", Merged(y));
    }
  }

  /** The rest of the conversation is untouched, and there is at most one system message, at the front. */
  lemma SanitizedShape(ms: seq<Message>)
    ensures NonSystem(Sanitized(ms)) == NonSystem(ms)
    ensures forall i | 0 < i < |Sanitized(ms)| :: !Sanitized(ms)[i].System?
    ensures Sanitized(ms) != [] && Sanitized(ms)[0].System? <==> Systems(ms) != []
  {
    NonSystemIs(ms);
    var s := Sanitized(ms);
    if Systems(ms) != [] {
      assert s[1..] == NonSystem(ms);
    } else if s != [] {
      assert NonSystem(ms) == ms;
    }
  }

  /** One system message before others is what sanitizing produces, and leaves alone. */
  lemma OneSystem(content: string, rest: seq<Message>)
    requires Systems(rest) == [] && NonSystem(rest) == rest
    ensures Sanitized([System(content)] + rest) == [System(content)] + rest
  {
    var s := [System(content)] + rest;
    assert s[0] == System(content) && s[1..] == rest;
    assert Systems(s) == [System(content)] + [] == [System(content)];
    assert NonSystem(s) == [] + rest == rest;
    assert Merged([System(content)]) == content;
  }

  lemma SanitizeIdempotent(ms: seq<Message>)
    ensures Sanitized(Sanitized(ms)) == Sanitized(ms)
  {
    NonSystemIs(ms);
    if Systems(ms) != [] {
      OneSystem(Merged(Systems(ms)), NonSystem(ms));
    }
  }

  /** Answers pass unchanged. */
  lemma {:induction false} AnswersKept(ms: seq<Message>, k: nat)
    requires k <= |ms| && forall i | 0 <= i < k :: ms[i].Tool?
    ensures NonSystem(ms) == ms[..k] + NonSystem(ms[k..])
  {
    if k == 0 {
      assert ms[..0] + NonSystem(ms) == NonSystem(ms);
    } else {
      AnswersKept(ms[1..], k - 1);
      assert ms[1..][k - 1..] == ms[k..] && [ms[0]] + ms[1..][..k - 1] == ms[..k];
      Assoc([ms[0]], ms[1..][..k - 1], NonSystem(ms[k..]));
    }
  }

  lemma {:induction false} NonSystemPaired(ms: seq<Message>)
    requires Paired(ms)
    ensures Paired(NonSystem(ms))
    decreases |ms|
  {
    if ms == [] {
    } else {
      var d := Span(ms[0]);
      NonSystemPaired(ms[d..]);
      if ms[0].System? {
        assert NonSystem(ms) == NonSystem(ms[1..]);
      } else {
        var answers := ms[1..][..d - 1];
        AnswersKept(ms[1..], d - 1);
        assert ms[1..][d - 1..] == ms[d..];
        PairedConcat([ms[0]] + answers, NonSystem(ms[d..]));
        Assoc([ms[0]], answers, NonSystem(ms[d..]));
      }
    }
  }

  /** What the model sees is paired whenever the conversation is. */
  lemma SanitizedPaired(ms: seq<Message>)
    requires Paired(ms)
    ensures Paired(Sanitized(ms))
  {
    NonSystemPaired(ms);
    if Systems(ms) != [] {
      PairedConcat([System(Merged(Systems(ms)))], NonSystem(ms));
    }
  }

  // ---- the nodes ----

  /** One `ainvoke`: the response, or an exception. */
  datatype Invocation = Responds(content: string, calls: seq<ToolCall>) | Raises(error: string)

  datatype PlanWorld = PlanWorld(modelFails: Option<string>, hasTools: bool, bindFails: bool, first: Invocation,
                                 retry: Invocation)

  const PLAN_ERROR := "I encountered an error while planning: "

  /** What `plan_node` returns: a failed call with tools bound is retried once without them. */
  function Planned(p: PlanWorld): Message {
    if p.modelFails.Some? then AI(PLAN_ERROR + p.modelFails.value, [])
    else
      var used := if p.first.Raises? && p.hasTools && !p.bindFails then p.retry else p.first;
      match used
      case Responds(content, calls) => AI(content, calls)
      case Raises(e) => AI(PLAN_ERROR + e, [])
  }

  method PlanNode(p: PlanWorld) returns (response: Message)
    ensures response == Planned(p)
  {
    if p.modelFails.Some? {
      return AI(PLAN_ERROR + p.modelFails.value, []);
    }
    var toolsBound := false;
    if p.hasTools && !p.bindFails {
      toolsBound := true;
    }
    var result := p.first;
    if result.Raises? && toolsBound {
      result := p.retry;
    }
    if result.Raises? {
      return AI(PLAN_ERROR + result.error, []);
    }
    return AI(result.content, result.calls);
  }

  /** The invocations `plan_node` makes, in order: none without a model, a second one only after tools were bound. */
  function Attempts(p: PlanWorld): seq<Invocation> {
    if p.modelFails.Some? then []
    else if p.first.Raises? && p.hasTools && !p.bindFails then [p.first, p.retry]
    else [p.first]
  }

  /**
   The plan is the response of the first invocation that succeeds. So it asks for tools only if the model did, and when
   none succeeds the graph goes on with a message that asks for none and names the last error. A failure is retried
   once, if tools were bound.
   */
  lemma PlannedExact(p: PlanWorld)
    ensures Planned(p).AI?
    ensures var a := Attempts(p);
      && (forall i | 0 <= i < |a| - 1 :: a[i].Raises?)
      && (forall i | 0 <= i < |a| && a[i].Responds? :: Planned(p) == AI(a[i].content, a[i].calls))
      && (a != [] && a[|a| - 1].Raises? ==> Planned(p) == AI(PLAN_ERROR + a[|a| - 1].error, []))
      && (a == [] ==> p.modelFails.Some? && Planned(p) == AI(PLAN_ERROR + p.modelFails.value, []))
      && (a != [] ==> p.modelFails.None? && a[0] == p.first && |a| <= 2)
      && (|a| == 2 ==> a[1] == p.retry)
      && (p.modelFails.None? ==> (|a| == 2 <==> p.first.Raises? && p.hasTools && !p.bindFails))
  {
    var a := Attempts(p);
    if a != [] {
      assert a[|a| - 1].Raises? || Planned(p) == AI(a[|a| - 1].content, a[|a| - 1].calls);
    }
  }

  /** `should_execute`. */
  predicate ShouldExecute(messages: seq<Message>)
    requires messages != []
  {
    var last := messages[|messages| - 1];
    last.AI? && last.calls != []
  }

  datatype Invoked = Returned(result: string) | NotFound | Failed(error: string)

  function AnswerText(call: ToolCall, r: Invoked): string {
    match r
    case Returned(result) => result
    case NotFound => "Error: Tool '" + call.name + "' not found"
    case Failed(error) => "Error executing " + call.name + ": " + error
  }

  function CallsOf(m: Message): seq<ToolCall> {
    if m.AI? then m.calls else []
  }

  /** One message per call; without a registry each says so. */
  function ToolMessages(calls: seq<ToolCall>, registry: Option<seq<Invoked>>): (r: seq<Message>)
    requires registry.Some? ==> |registry.value| == |calls|
    ensures Answers(r, calls)
  {
    seq(|calls|, i requires 0 <= i < |calls| =>
      Tool(if registry.Some? then AnswerText(calls[i], registry.value[i]) else "Error: Tool Registry not available",
           calls[i].id))
  }

  /** Does `m` answer this call, with this outcome? Without a registry there is none. */
  predicate IsAnswer(m: Message, call: ToolCall, outcome: Option<Invoked>) {
    && m.Tool? && m.callId == call.id
    && match outcome
       case None => m.content == "Error: Tool Registry not available"
       case Some(Returned(result)) => m.content == result
       case Some(NotFound) => m.content == "Error: Tool '" + call.name + "' not found"
       case Some(Failed(error)) => m.content == "Error executing " + call.name + ": " + error
  }

  function OutcomeAt(registry: Option<seq<Invoked>>, j: nat): Option<Invoked>
    requires registry.Some? ==> j < |registry.value|
  {
    if registry.Some? then Some(registry.value[j]) else None
  }

  /** `registry` gives the outcome of every call, or is absent; a message without tool calls gets no answer. */
  method ExecuteNode(messages: seq<Message>, registry: Option<seq<Invoked>>) returns (toolMessages: seq<Message>)
    requires messages != []
    requires registry.Some? ==> |registry.value| == |CallsOf(messages[|messages| - 1])|
    ensures toolMessages == ToolMessages(CallsOf(messages[|messages| - 1]), registry)
    ensures |toolMessages| == |CallsOf(messages[|messages| - 1])|
    ensures forall j | 0 <= j < |toolMessages| ::
      IsAnswer(toolMessages[j], CallsOf(messages[|messages| - 1])[j], OutcomeAt(registry, j))
  {
    toolMessages := [];
    var last := messages[|messages| - 1];
    if !last.AI? || last.calls == [] {
      return;
    }
    var calls := last.calls;
    for i := 0 to |calls|
      invariant toolMessages == ToolMessages(calls, registry)[..i]
    {
      var content := "Error: Tool Registry not available";
      if registry.Some? {
        content := InvokeTool(calls[i], registry.value[i]);
      }
      toolMessages := toolMessages + [Tool(content, calls[i].id)];
    }
    AllAnswered(calls, registry);
  }

  lemma AllAnswered(calls: seq<ToolCall>, registry: Option<seq<Invoked>>)
    requires registry.Some? ==> |registry.value| == |calls|
    ensures forall j | 0 <= j < |calls| :: IsAnswer(ToolMessages(calls, registry)[j], calls[j], OutcomeAt(registry, j))
  {
  }

  /** One call: its result as text, or a message for the exception it raised. */
  method InvokeTool(call: ToolCall, outcome: Invoked) returns (content: string)
    ensures content == AnswerText(call, outcome)
  {
    match outcome
    case Returned(result) => content := result;
    case NotFound => content := "Error: Tool '" + call.name + "' not found";
    case Failed(error) => content := "Error executing " + call.name + ": " + error;
  }

  const APOLOGY := "I apologize, but I encountered an error generating a response. Please try again."

  /** What `respond_node` returns. */
  function Responded(response: Invocation): Message {
    match response
    case Responds(content, calls) => AI(content, calls)
    case Raises(_) => AI(APOLOGY, [])
  }

  method RespondNode(response: Invocation) returns (message: Message)
    ensures message == Responded(response)
    ensures response.Responds? ==> message == AI(response.content, response.calls)
    ensures response.Raises? ==> message == AI(APOLOGY, [])
  {
    if response.Raises? {
      return AI(APOLOGY, []);
    }
    return AI(response.content, response.calls);
  }

  // ---- turns ----

  /** A turn that was not cancelled: the user's text, the injected context, and what the models and tools do. */
  datatype Turn = Turn(user: string, context: seq<Message>, plan: PlanWorld, registry: Option<seq<Invoked>>,
                       response: Invocation)

  /** Context is made of system messages and remembered exchanges; a registry has an outcome for every call. */
  predicate TurnOk(t: Turn) {
    Plain(t.context) && (t.registry.Some? ==> |t.registry.value| == |Planned(t.plan).calls|)
  }

  function AfterPlan(ms: seq<Message>, t: Turn): seq<Message> {
    ms + [Human(t.user)] + t.context + [Planned(t.plan)]
  }

  /** The graph: execute only if the last message asks for tools, and respond in any case. */
  function TurnDone(ms: seq<Message>, t: Turn): seq<Message>
    requires TurnOk(t)
  {
    var planned := AfterPlan(ms, t);
    (if ShouldExecute(planned) then planned + ToolMessages(Planned(t.plan).calls, t.registry) else planned)
    + [Responded(t.response)]
  }

  /** One run of the graph, node by node. */
  method RunTurn(messages: seq<Message>, t: Turn) returns (r: seq<Message>)
    requires TurnOk(t)
    ensures r == TurnDone(messages, t) && IsTurn(messages, t, r)
  {
    TurnExact(messages, t);
    r := messages + [Human(t.user)] + t.context;
    var planned := PlanNode(t.plan);
    r := r + [planned];
    if ShouldExecute(r) {
      var toolMessages := ExecuteNode(r, t.registry);
      r := r + toolMessages;
    }
    var response := RespondNode(t.response);
    r := r + [response];
  }

  function Conversation(turns: seq<Turn>): seq<Message>
    requires forall i | 0 <= i < |turns| :: TurnOk(turns[i])
  {
    if turns == [] then [] else TurnDone(Conversation(turns[..|turns| - 1]), turns[|turns| - 1])
  }

  /** What a turn adds before its response. */
  function TurnBody(t: Turn): seq<Message>
    requires TurnOk(t)
  {
    [Human(t.user)] + t.context + ([Planned(t.plan)] + ToolMessages(Planned(t.plan).calls, t.registry))
  }

  lemma TurnIs(ms: seq<Message>, t: Turn)
    requires TurnOk(t)
    ensures TurnDone(ms, t) == ms + TurnBody(t) + [Responded(t.response)] && Paired(TurnBody(t))
  {
    var p := Planned(t.plan);
    var planned := AfterPlan(ms, t);
    assert planned[|planned| - 1] == p;
    var tools := ToolMessages(p.calls, t.registry);
    assert planned + tools == ms + TurnBody(t);
    if p.calls == [] { assert planned + tools == planned; }
    PlainPaired([Human(t.user)] + t.context);
    PairedConcat([Human(t.user)] + t.context, [p] + tools);
  }

  /** Answers that end before a message of another kind are answers without it. */
  lemma AnswersPrefix(x: seq<Message>, y: seq<Message>, calls: seq<ToolCall>)
    requires Answers(x + y, calls) && (y == [] || !y[0].Tool?)
    ensures Answers(x, calls)
  {
    assert y != [] ==> (x + y)[|x|] == y[0];
    forall j | 0 <= j < |calls| ensures x[j].Tool? && x[j].callId == calls[j].id {
      assert (x + y)[j] == x[j];
    }
  }

  lemma {:induction false} PairedPrefix(x: seq<Message>, y: seq<Message>)
    requires Paired(x + y) && (y == [] || !y[0].Tool?)
    ensures Paired(x)
    decreases |x|
  {
    if x == [] {
    } else {
      var d := Span(x[0]);
      assert (x + y)[0] == x[0] && (x + y)[1..] == x[1..] + y;
      if x[0].AI? { AnswersPrefix(x[1..], y, x[0].calls); }
      assert (x + y)[d..] == x[d..] + y;
      PairedPrefix(x[d..], y);
    }
  }

  lemma PairedLast(x: seq<Message>, m: Message)
    requires m.AI? && Paired(x)
    ensures Paired(x + [m]) <==> m.calls == []
  {
    if m.calls == [] {
      PairedConcat(x, [m]);
    } else {
      PairedExact(x + [m]);
      assert (x + [m])[|x|] == m && (x + [m])[|x| + 1..] == [];
    }
  }

  predicate AsksForTools(response: Invocation) {
    response.Responds? && response.calls != []
  }

  /** The positions of a turn: history, the user, context, plan, answers, response. */
  lemma TurnPositions(ms: seq<Message>, t: Turn)
    requires TurnOk(t)
    ensures var r, k, p := TurnDone(ms, t), |ms| + 1 + |t.context|, Planned(t.plan);
      && |r| == k + 1 + |p.calls| + 1 && r[..|ms| + 1] == ms + [Human(t.user)]
      && (forall i | |ms| < i < k :: r[i] == t.context[i - |ms| - 1]) && r[k] == p
      && (forall i | k < i < |r| - 1 :: r[i].Tool?) && r[|r| - 1] == Responded(t.response)
  {
    TurnIs(ms, t);
    var p := Planned(t.plan);
    var tools := ToolMessages(p.calls, t.registry);
    var r := ms + ([Human(t.user)] + t.context + ([p] + tools)) + [Responded(t.response)];
    assert TurnDone(ms, t) == r;
    assert forall i | 0 <= i < |tools| :: r[|ms| + 1 + |t.context| + 1 + i] == tools[i];
  }

  /** Is `m` the message that answers the user? */
  predicate IsResponse(m: Message, response: Invocation) {
    if response.Responds? then m == AI(response.content, response.calls) else m == AI(APOLOGY, [])
  }

  /**
   A turn position by position: the history, the user, the context, the plan, one answer per call that the plan asks
   for, in order and with that call's outcome, and the response.
   */
  ghost predicate IsTurn(ms: seq<Message>, t: Turn, r: seq<Message>)
    requires TurnOk(t)
  {
    var k, calls := |ms| + 1 + |t.context|, Planned(t.plan).calls;
    && |r| == k + 1 + |calls| + 1
    && r[..k] == ms + [Human(t.user)] + t.context && r[k] == Planned(t.plan)
    && (forall j | 0 <= j < |calls| :: IsAnswer(r[k + 1 + j], calls[j], OutcomeAt(t.registry, j)))
    && IsResponse(r[|r| - 1], t.response)
  }

  lemma TurnExact(ms: seq<Message>, t: Turn)
    requires TurnOk(t)
    ensures IsTurn(ms, t, TurnDone(ms, t))
  {
    TurnParts(ms, t);
    TurnOfParts(ms, t, ToolMessages(Planned(t.plan).calls, t.registry), Responded(t.response), TurnDone(ms, t));
  }

  lemma TurnOfParts(ms: seq<Message>, t: Turn, tools: seq<Message>, response: Message, r: seq<Message>)
    requires TurnOk(t) && IsResponse(response, t.response)
    requires tools == ToolMessages(Planned(t.plan).calls, t.registry)
    requires r == AfterPlan(ms, t) + tools + [response]
    ensures IsTurn(ms, t, r)
  {
    var pre, tail := ms + [Human(t.user)] + t.context, [Planned(t.plan)] + tools + [response];
    assert r == pre + tail;
    AnswersBetween(AfterPlan(ms, t), Planned(t.plan).calls, t.registry, [response]);
  }

  lemma TurnParts(ms: seq<Message>, t: Turn)
    requires TurnOk(t)
    ensures |AfterPlan(ms, t)| == |ms| + 1 + |t.context| + 1
    ensures TurnDone(ms, t)
         == AfterPlan(ms, t) + ToolMessages(Planned(t.plan).calls, t.registry) + [Responded(t.response)]
  {
    var planned := AfterPlan(ms, t);
    assert planned[|planned| - 1] == Planned(t.plan);
    if Planned(t.plan).calls == [] { assert planned + ToolMessages([], t.registry) == planned; }
  }

  lemma AnswersBetween(front: seq<Message>, calls: seq<ToolCall>, registry: Option<seq<Invoked>>, last: seq<Message>)
    requires registry.Some? ==> |registry.value| == |calls|
    ensures var r := front + ToolMessages(calls, registry) + last;
      forall j | 0 <= j < |calls| :: IsAnswer(r[|front| + j], calls[j], OutcomeAt(registry, j))
  {
    var tools := ToolMessages(calls, registry);
    forall j | 0 <= j < |calls| ensures (front + tools + last)[|front| + j] == tools[j] {}
  }

  /** Every turn of a conversation stays in it as it was: it follows the earlier turns, and later ones follow it. */
  lemma {:induction false} ConversationExact(turns: seq<Turn>, k: nat)
    requires (forall i | 0 <= i < |turns| :: TurnOk(turns[i])) && k < |turns|
    ensures Conversation(turns[..k + 1]) <= Conversation(turns)
    ensures IsTurn(Conversation(turns[..k]), turns[k], Conversation(turns[..k + 1]))
  {
    var n := |turns| - 1;
    assert turns[..k + 1][..k] == turns[..k];
    LastTurn(turns[..k + 1], k, Conversation(turns[..k]), Conversation(turns[..k + 1]));
    if k < n {
      assert turns[..n][..k] == turns[..k] && turns[..n][..k + 1] == turns[..k + 1];
      ConversationExact(turns[..n], k);
      LastTurn(turns, n, Conversation(turns[..n]), Conversation(turns));
    } else {
      assert turns[..k + 1] == turns;
    }
  }

  lemma LastTurn(turns: seq<Turn>, n: nat, before: seq<Message>, r: seq<Message>)
    requires (forall i | 0 <= i < |turns| :: TurnOk(turns[i])) && n == |turns| - 1
    requires before == Conversation(turns[..n]) && r == Conversation(turns)
    ensures before <= r && IsTurn(before, turns[n], r)
  {
    assert r == TurnDone(before, turns[n]);
    TurnFollows(before, turns[n], r);
  }

  lemma TurnFollows(ms: seq<Message>, t: Turn, r: seq<Message>)
    requires TurnOk(t) && r == TurnDone(ms, t)
    ensures ms <= r && IsTurn(ms, t, r)
  {
    TurnExact(ms, t);
    TurnPositions(ms, t);
    assert ms <= ms + [Human(t.user)];
  }

  /** A turn leaves the history alone and ends with a message of the assistant, even if every model call fails. */
  lemma TurnExtends(ms: seq<Message>, t: Turn)
    requires TurnOk(t)
    ensures var r := TurnDone(ms, t);
      && ms + [Human(t.user)] <= r && |r| >= |ms| + 3
      && r[|r| - 1].AI? && (r[|r| - 1].calls != [] <==> AsksForTools(t.response))
      && (ShouldExecute(AfterPlan(ms, t)) <==> exists i: nat :: |ms| < i < |r| && r[i].Tool?)
  {
    TurnPositions(ms, t);
    var r, k, p := TurnDone(ms, t), |ms| + 1 + |t.context|, Planned(t.plan);
    assert AfterPlan(ms, t)[k] == p;
    if p.calls != [] { assert r[k + 1].Tool?; }
  }

  lemma TurnPaired(ms: seq<Message>, t: Turn)
    requires TurnOk(t)
    ensures Paired(TurnDone(ms, t)) <==> Paired(ms) && !AsksForTools(t.response)
  {
    TurnIs(ms, t);
    var body, last := TurnBody(t), Responded(t.response);
    if Paired(ms) {
      PairedConcat(ms, body);
      PairedLast(ms + body, last);
    }
    if Paired(TurnDone(ms, t)) {
      assert TurnDone(ms, t) == ms + (body + [last]) && body[0] == Human(t.user);
      PairedPrefix(ms, body + [last]);
    }
  }

  /**
   Over any number of turns, every message with tool calls is followed immediately by one answer per call, in order,
   exactly when no response of the respond node asks for tools itself.
   */
  lemma {:induction false} PairingExact(turns: seq<Turn>)
    requires forall i | 0 <= i < |turns| :: TurnOk(turns[i])
    ensures Paired(Conversation(turns)) <==> forall i | 0 <= i < |turns| :: !AsksForTools(turns[i].response)
  {
    if turns == [] {
    } else {
      var n := |turns| - 1;
      assert turns == turns[..n] + [turns[n]];
      PairingExact(turns[..n]);
      TurnPaired(Conversation(turns[..n]), turns[n]);
    }
  }

  function Texts(es: seq<Entry>): seq<Message> {
    seq(|es|, i requires 0 <= i < |es| => es[i].msg)
  }

  lemma TextsConcat(es: seq<Entry>, added: seq<Entry>)
    ensures Texts(es + added) == Texts(es) + Texts(added)
  {
  }

  /** With fresh ids the reducer makes a turn exactly the messages of its nodes, in order. */
  lemma ReducerIsTurn(es: seq<Entry>, added: seq<Entry>, t: Turn)
    requires TurnOk(t) && FreshIds(es, added) && Texts(added) == TurnBody(t) + [Responded(t.response)]
    ensures Texts(AddMessages(es, added)) == TurnDone(Texts(es), t)
  {
    FreshAppends(es, added);
    TextsConcat(es, added);
    TurnIs(Texts(es), t);
    Assoc(Texts(es), TurnBody(t), [Responded(t.response)]);
  }
}
