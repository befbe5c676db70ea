/** Turning a growing parsed message into streaming deltas, and putting the deltas
    together again (oai_chat/common.rs). */
module StreamDeltas {
  import opened Options
  import opened Text
  import Decimal
  import GenerationPrompt

  datatype ParsedToolCall = ParsedToolCall(name: string, arguments: string)

  datatype ParsedChatMsg = ParsedChatMsg(content: string, reasoning: Option<string>, calls: seq<ParsedToolCall>)

  const NO_MSG := ParsedChatMsg("", None, [])

  /** One OAI delta object: text, reasoning, or a fragment of one tool call. */
  datatype Delta =
    | Content(text: string)
    | Reasoning(text: string)
    | Call(index: nat, id: Option<string>, name: Option<string>, arguments: string)

  // ---- The emitter ----

  datatype DeltaState = DeltaState(
    previous: ParsedChatMsg,
    promptBody: string,
    promptEmitted: bool,
    callIds: seq<string>)

  /** A synthesized id: the call's index and a time stamp. */
  function CallId(index: nat, stamp: string): (id: string)
    ensures id != ""
  {
    "call_" + Decimal.Show(index) + "_" + stamp
  }

  /** `ids` extended up to `n` entries, the new ones stamped by `clock`. */
  function ExtendIds(ids: seq<string>, n: nat, clock: nat -> string): (r: seq<string>)
    requires |ids| <= n
    ensures |r| == n && ids <= r
    ensures forall i :: |ids| <= i < n ==> r[i] == CallId(i, clock(i))
  {
    ids + seq(n - |ids|, k requires 0 <= k => CallId(|ids| + k, clock(|ids| + k)))
  }

  function NonEmpty(f: string -> Delta, text: string): seq<Delta> {
    if text == "" then [] else [f(text)]
  }

  function Grown(f: string -> Delta, before: string, now: string): seq<Delta> {
    if before <= now then NonEmpty(f, now[|before|..]) else []
  }

  function TextDeltas(st: DeltaState, now: ParsedChatMsg): seq<Delta> {
    (if st.promptEmitted then [] else NonEmpty((t: string) => Content(t), st.promptBody))
    + Grown((t: string) => Content(t), st.previous.content, now.content)
  }

  function ReasoningDeltas(st: DeltaState, now: ParsedChatMsg): seq<Delta> {
    if now.reasoning.None? then []
    else Grown((t: string) => Reasoning(t), OrEmpty(st.previous.reasoning), now.reasoning.value)
  }

  /** Delta for call `i`: a new call names itself, a known one sends what grew. */
  function CallDelta(before: seq<ParsedToolCall>, now: seq<ParsedToolCall>, ids: seq<string>, i: nat): seq<Delta>
    requires i < |now| <= |ids|
  {
    if i >= |before| then [Call(i, Some(ids[i]), Some(now[i].name), now[i].arguments)]
    else if before[i].arguments < now[i].arguments then
      [Call(i, None, None, now[i].arguments[|before[i].arguments|..])]
    else []
  }

  /** Deltas for the calls from index `i` on. */
  function CallDeltas(before: seq<ParsedToolCall>, now: seq<ParsedToolCall>, ids: seq<string>, i: nat): seq<Delta>
    requires i <= |now| <= |ids|
    decreases |now| - i
  {
    if i == |now| then [] else CallDelta(before, now, ids, i) + CallDeltas(before, now, ids, i + 1)
  }

  lemma CallDeltasStep(before: seq<ParsedToolCall>, now: seq<ParsedToolCall>, ids: seq<string>, i: nat,
                       sent: seq<Delta>)
    requires i < |now| <= |ids|
    ensures sent + CallDeltas(before, now, ids, i)
         == sent + CallDelta(before, now, ids, i) + CallDeltas(before, now, ids, i + 1)
  {
  }

  function KnownDelta(index: nat, grown: string): seq<Delta> {
    if grown == "" then [] else [Call(index, None, None, grown)]
  }

  lemma CallDeltaCases(before: seq<ParsedToolCall>, now: seq<ParsedToolCall>, ids: seq<string>, i: nat)
    requires i < |now| <= |ids|
    ensures i >= |before| ==>
      CallDelta(before, now, ids, i) == [Call(i, Some(ids[i]), Some(now[i].name), now[i].arguments)]
    ensures i < |before| && before[i].arguments <= now[i].arguments ==>
      CallDelta(before, now, ids, i) == KnownDelta(i, now[i].arguments[|before[i].arguments|..])
  {
  }

  /** Loop invariant of `EmitCalls` at call `i`. */
  ghost predicate EmitInvariant(handed: seq<string>, sent: seq<Delta>, before: seq<ParsedToolCall>,
                                now: seq<ParsedToolCall>, ids: seq<string>, i: nat, goal: seq<Delta>)
    requires i <= |now| <= |ids|
  {
    && |before| <= |now|
    && handed == ids[..if i < |before| then |before| else i]
    && (forall k :: 0 <= k < i && k < |before| ==> before[k].arguments <= now[k].arguments)
    && sent + CallDeltas(before, now, ids, i) == goal
  }

  lemma EmitStart(handed: seq<string>, before: seq<ParsedToolCall>, now: seq<ParsedToolCall>, ids: seq<string>)
    requires |handed| == |before| <= |now| == |ids| && handed <= ids
    ensures EmitInvariant(handed, [], before, now, ids, 0, CallDeltas(before, now, ids, 0))
  {
  }

  lemma EmitNext(handed: seq<string>, sent: seq<Delta>, before: seq<ParsedToolCall>,
                 now: seq<ParsedToolCall>, ids: seq<string>, i: nat, goal: seq<Delta>)
    requires i < |now| <= |ids| && EmitInvariant(handed, sent, before, now, ids, i, goal)
    ensures i >= |before| ==> |handed| == i
  {
  }

  lemma EmitStep(handed: seq<string>, sent: seq<Delta>, before: seq<ParsedToolCall>,
                 now: seq<ParsedToolCall>, ids: seq<string>, i: nat, goal: seq<Delta>,
                 handed': seq<string>, delta: seq<Delta>)
    requires i < |now| <= |ids| && EmitInvariant(handed, sent, before, now, ids, i, goal)
    requires i >= |before| ==>
      && handed' == handed + [ids[i]]
      && delta == [Call(i, Some(ids[i]), Some(now[i].name), now[i].arguments)]
    requires i < |before| ==>
      && handed' == handed && before[i].arguments <= now[i].arguments
      && delta == KnownDelta(i, now[i].arguments[|before[i].arguments|..])
    ensures EmitInvariant(handed', sent + delta, before, now, ids, i + 1, goal)
  {
    hide CallDeltas, CallDelta, KnownDelta;
    CallDeltasStep(before, now, ids, i, sent);
    CallDeltaCases(before, now, ids, i);
    if i >= |before| {
      assert ids[..i] + [ids[i]] == ids[..i + 1];
    }
  }

  lemma EmitRefused(handed: seq<string>, sent: seq<Delta>, before: seq<ParsedToolCall>,
                    now: seq<ParsedToolCall>, ids: seq<string>, i: nat, goal: seq<Delta>)
    requires i < |now| <= |ids| && EmitInvariant(handed, sent, before, now, ids, i, goal)
    requires i < |before| && !(before[i].arguments <= now[i].arguments)
    ensures handed == ids[..|before|] && !ArgumentsExtend(before, now)
  {
  }

  lemma EmitDone(handed: seq<string>, sent: seq<Delta>, before: seq<ParsedToolCall>,
                 now: seq<ParsedToolCall>, ids: seq<string>, goal: seq<Delta>)
    requires |now| == |ids| && EmitInvariant(handed, sent, before, now, ids, |now|, goal)
    ensures handed == ids && sent == goal && ArgumentsExtend(before, now)
  {
  }

  /** Arguments of every known call extend. */
  predicate ArgumentsExtend(before: seq<ParsedToolCall>, now: seq<ParsedToolCall>) {
    forall i :: 0 <= i < |before| && i < |now| ==> before[i].arguments <= now[i].arguments
  }

  /** Something got shorter, in bytes. */
  predicate Shrinks(before: ParsedChatMsg, now: ParsedChatMsg) {
    || ByteLen(now.content) < ByteLen(before.content)
    || |now.calls| < |before.calls|
    || exists i :: 0 <= i < |before.calls| && i < |now.calls|
                   && ByteLen(now.calls[i].arguments) < ByteLen(before.calls[i].arguments)
  }

  predicate IsRefused(before: ParsedChatMsg, now: ParsedChatMsg) {
    Shrinks(before, now) || !ArgumentsExtend(before.calls, now.calls)
  }

  lemma GrowingDoesNotShrink(before: ParsedChatMsg, now: ParsedChatMsg)
    requires Grows(before, now)
    ensures !Shrinks(before, now)
  {
    hide ByteLen;
    PrefixIsNotLonger(before.content, now.content);
    forall i | 0 <= i < |before.calls| && i < |now.calls|
      ensures ByteLen(before.calls[i].arguments) <= ByteLen(now.calls[i].arguments)
    {
      PrefixIsNotLonger(before.calls[i].arguments, now.calls[i].arguments);
    }
  }

  function Update(st: DeltaState, now: ParsedChatMsg, clock: nat -> string): (DeltaState, Option<seq<Delta>>)
    requires |st.callIds| <= |st.previous.calls|
  {
    if Shrinks(st.previous, now) then (st, None)
    else if !ArgumentsExtend(st.previous.calls, now.calls) then (st.(promptEmitted := true), None)
    else
      var ids := ExtendIds(st.callIds, |now.calls|, clock);
      (DeltaState(now, st.promptBody, true, ids),
       Some(TextDeltas(st, now) + ReasoningDeltas(st, now) + CallDeltas(st.previous.calls, now.calls, ids, 0)))
  }

  predicate ValidState(st: DeltaState) {
    && |st.callIds| == |st.previous.calls|
    && (!st.promptEmitted ==> st.previous == NO_MSG)
  }

  /** An update that is refused leaves no trace: the state, and with it the pending
      generation prompt, is as before. */
  lemma RefusedUpdateChangesNothing(st: DeltaState, now: ParsedChatMsg, clock: nat -> string)
    requires ValidState(st)
    ensures var r := Update(st, now, clock);
      && ValidState(r.0)
      && (r.1.None? ==> r.0 == st)
      && (r.1.None? <==>
            || ByteLen(now.content) < ByteLen(st.previous.content)
            || |now.calls| < |st.previous.calls|
            || exists i :: 0 <= i < |st.previous.calls| && i < |now.calls|
                           && !(st.previous.calls[i].arguments <= now.calls[i].arguments))
  {
    hide ByteLen;
    forall i | 0 <= i < |st.previous.calls| && i < |now.calls|
               && st.previous.calls[i].arguments <= now.calls[i].arguments
      ensures ByteLen(st.previous.calls[i].arguments) <= ByteLen(now.calls[i].arguments)
    {
      PrefixIsNotLonger(st.previous.calls[i].arguments, now.calls[i].arguments);
    }
  }

  lemma AcceptedKeepsCalls(st: DeltaState, now: ParsedChatMsg, clock: nat -> string)
    requires ValidState(st) && Update(st, now, clock).1.Some?
    ensures |st.previous.calls| <= |now.calls| && ArgumentsExtend(st.previous.calls, now.calls)
  {
  }

  /** A delta says something; a call names itself with its first delta and never again. */
  predicate WellFormedDelta(d: Delta, known: nat) {
    match d
    case Content(text) => text != ""
    case Reasoning(text) => text != ""
    case Call(index, id, name, arguments) =>
      if index < known then id.None? && name.None? && arguments != "" else id.Some? && name.Some?
  }

  /** Well-formed deltas of calls from index `from` on, in ascending order. */
  predicate CallsInOrder(ds: seq<Delta>, from: nat, known: nat) {
    && (forall k :: 0 <= k < |ds| ==> ds[k].Call? && from <= ds[k].index && WellFormedDelta(ds[k], known))
    && (forall k, l :: 0 <= k < l < |ds| ==> ds[k].index < ds[l].index)
  }

  lemma CallsPrepend(d: seq<Delta>, rest: seq<Delta>, i: nat, known: nat)
    requires |d| <= 1 && (d != [] ==> d[0].Call? && d[0].index == i && WellFormedDelta(d[0], known))
    requires CallsInOrder(rest, i + 1, known)
    ensures CallsInOrder(d + rest, i, known)
  {
    hide WellFormedDelta;
    if d == [] {
      assert d + rest == rest;
    }
  }

  lemma {:induction false} CallDeltasShape(before: seq<ParsedToolCall>, now: seq<ParsedToolCall>, ids: seq<string>,
                                           i: nat)
    requires i <= |now| <= |ids| && |before| <= |now|
    ensures CallsInOrder(CallDeltas(before, now, ids, i), i, |before|)
    decreases |now| - i
  {
    hide CallsInOrder;
    if i == |now| {
      NoCalls(i, |before|);
    } else {
      CallDeltasShape(before, now, ids, i + 1);
      CallsPrepend(CallDelta(before, now, ids, i), CallDeltas(before, now, ids, i + 1), i, |before|);
    }
  }

  lemma NoCalls(i: nat, known: nat)
    ensures CallsInOrder([], i, known)
  {
  }

  /** Contents up to `a`, reasoning up to `b`, then calls in ascending order. */
  predicate InOrder(ds: seq<Delta>, a: nat, b: nat) {
    && a <= b <= |ds|
    && (forall k :: 0 <= k < a ==> ds[k].Content?)
    && (forall k :: a <= k < b ==> ds[k].Reasoning?)
    && (forall k :: b <= k < |ds| ==> ds[k].Call?)
    && (forall k, l :: b <= k < l < |ds| ==> ds[k].index < ds[l].index)
  }

  lemma TextDeltasShape(st: DeltaState, now: ParsedChatMsg)
    ensures var ds := TextDeltas(st, now);
      forall k :: 0 <= k < |ds| ==> ds[k].Content? && ds[k].text != ""
    ensures var ds := ReasoningDeltas(st, now);
      forall k :: 0 <= k < |ds| ==> ds[k].Reasoning? && ds[k].text != ""
  {
  }

  lemma ThreeParts(x: seq<Delta>, y: seq<Delta>, z: seq<Delta>, known: nat)
    requires forall k :: 0 <= k < |x| ==> x[k].Content? && WellFormedDelta(x[k], known)
    requires forall k :: 0 <= k < |y| ==> y[k].Reasoning? && WellFormedDelta(y[k], known)
    requires CallsInOrder(z, 0, known)
    ensures InOrder(x + y + z, |x|, |x| + |y|)
    ensures forall k :: 0 <= k < |x + y + z| ==> WellFormedDelta((x + y + z)[k], known)
  {
    hide WellFormedDelta;
  }

  /** Every delta emitted is well formed; text comes first, then reasoning, then the
      calls in ascending order. */
  lemma UpdateShape(st: DeltaState, now: ParsedChatMsg, clock: nat -> string)
    requires ValidState(st) && Update(st, now, clock).1.Some?
    ensures var ds := Update(st, now, clock).1.value;
      && (forall k :: 0 <= k < |ds| ==> WellFormedDelta(ds[k], |st.previous.calls|))
      && exists a, b :: InOrder(ds, a, b)
  {
    hide CallDeltas, TextDeltas, ReasoningDeltas, Shrinks, ArgumentsExtend, CallsInOrder;
    AcceptedKeepsCalls(st, now, clock);
    var ids := Update(st, now, clock).0.callIds;
    CallDeltasShape(st.previous.calls, now.calls, ids, 0);
    TextDeltasShape(st, now);
    ThreeParts(TextDeltas(st, now), ReasoningDeltas(st, now), CallDeltas(st.previous.calls, now.calls, ids, 0),
               |st.previous.calls|);
  }

  class StreamState {
    var previous: ParsedChatMsg
    const promptBody: string
    var promptEmitted: bool
    var callIds: seq<string>

    constructor (generationPrompt: string)
      ensures State() == DeltaState(NO_MSG, GenerationPrompt.Body(generationPrompt), false, [])
      ensures ValidState(State())
    {
      previous, promptEmitted, callIds := NO_MSG, false, [];
      promptBody := GenerationPrompt.Body(generationPrompt);
    }

    function State(): DeltaState
      reads this
    {
      DeltaState(previous, promptBody, promptEmitted, callIds)
    }

    /** One call: a new one gets an id, a known one must extend. */
    method EmitCall(known: seq<ParsedToolCall>, call: ParsedToolCall, index: nat, clock: nat -> string)
      returns (r: Option<seq<Delta>>)
      requires index >= |known| ==> |callIds| == index
      modifies this`callIds
      ensures index >= |known| ==>
        && callIds == old(callIds) + [CallId(index, clock(index))]
        && r == Some([Call(index, Some(CallId(index, clock(index))), Some(call.name), call.arguments)])
      ensures index < |known| ==>
        var before := known[index].arguments;
        && callIds == old(callIds)
        && r == if before <= call.arguments then Some(KnownDelta(index, call.arguments[|before|..])) else None
    {
      if index >= |known| {
        callIds := callIds + [CallId(index, clock(index))];
        return Some([Call(index, Some(callIds[index]), Some(call.name), call.arguments)]);
      }
      var before := known[index].arguments;
      if !(before <= call.arguments) {
        return None;
      }
      var grown := call.arguments[|before|..];
      r := Some([]);
      if grown != "" {
        r := Some([Call(index, None, None, grown)]);
      }
    }

    /** The loop over the calls; gives up on the first one that does not extend. */
    method EmitCalls(calls: seq<ParsedToolCall>, clock: nat -> string) returns (r: Option<seq<Delta>>)
      requires |callIds| == |previous.calls| <= |calls|
      modifies this`callIds
      ensures r.None? <==> !ArgumentsExtend(previous.calls, calls)
      ensures r.None? ==> callIds == old(callIds)
      ensures r.Some? ==> callIds == ExtendIds(old(callIds), |calls|, clock)
      ensures r.Some? ==> r.value == CallDeltas(previous.calls, calls, callIds, 0)
    {
      hide *;
      var known := previous.calls;
      ghost var ids := ExtendIds(callIds, |calls|, clock);
      ghost var goal := CallDeltas(known, calls, ids, 0);
      var deltas: seq<Delta> := [];
      var index := 0;
      EmitStart(callIds, known, calls, ids);
      while index < |calls|
        invariant index <= |calls| <= |ids|
        invariant EmitInvariant(callIds, deltas, known, calls, ids, index, goal)
      {
        EmitNext(callIds, deltas, known, calls, ids, index, goal);
        ghost var before := callIds;
        var delta := EmitCall(known, calls[index], index, clock);
        if delta.None? {
          EmitRefused(before, deltas, known, calls, ids, index, goal);
          return None;
        }
        EmitStep(before, deltas, known, calls, ids, index, goal, callIds, delta.value);
        deltas := deltas + delta.value;
        index := index + 1;
      }
      EmitDone(callIds, deltas, known, calls, ids, goal);
      return Some(deltas);
    }

    method ParsedStreamDeltas(now: ParsedChatMsg, clock: nat -> string) returns (r: Option<seq<Delta>>)
      requires ValidState(State())
      modifies this
      ensures (State(), r) == Update(old(State()), now, clock)
    {
      hide TextDeltas, ReasoningDeltas, CallDeltas, ExtendIds, ArgumentsExtend;
      if Shrinks(previous, now) {
        return None;
      }
      var deltas := TextDeltas(State(), now) + ReasoningDeltas(State(), now);
      promptEmitted := true;
      var callDeltas := EmitCalls(now.calls, clock);
      if callDeltas.None? {
        return None;
      }
      previous := now;
      return Some(deltas + callDeltas.value);
    }
  }

  // ---- The receiver ----

  datatype ToolCallDelta = ToolCallDelta(index: nat, id: Option<string>, name: Option<string>, arguments: string)

  datatype OaiStreamUpdate = OaiStreamUpdate(text: string, reasoning: string, calls: seq<ToolCallDelta>)

  const NO_UPDATE := OaiStreamUpdate("", "", [])

  function Filled(o: Option<string>): Option<string> {
    if o == Some("") then None else o
  }

  /** What one delta adds to an update; empty ids and names count as absent. */
  function Add(u: OaiStreamUpdate, d: Delta): OaiStreamUpdate {
    match d
    case Content(t) => u.(text := u.text + t)
    case Reasoning(t) => u.(reasoning := u.reasoning + t)
    case Call(i, id, name, args) =>
      u.(calls := u.calls + [ToolCallDelta(i, Filled(id), Filled(name), args)])
  }

  function Decode(ds: seq<Delta>): OaiStreamUpdate {
    if ds == [] then NO_UPDATE else Add(Decode(ds[..|ds| - 1]), ds[|ds| - 1])
  }

  /** Nothing but the empty string counts as absent. */
  predicate GivenAs(o: Option<string>, given: Option<string>) {
    if o.None? || o.value == "" then given.None? else given == o
  }

  /** `v` is `u` and one more delta: text added to the text, reasoning to the reasoning,
      a call fragment to the fragments, with an empty id or name taken for none. */
  predicate AddsTo(u: OaiStreamUpdate, d: Delta, v: OaiStreamUpdate) {
    match d
    case Content(t) => v == OaiStreamUpdate(u.text + t, u.reasoning, u.calls)
    case Reasoning(t) => v == OaiStreamUpdate(u.text, u.reasoning + t, u.calls)
    case Call(i, id, name, args) =>
      && v.text == u.text && v.reasoning == u.reasoning && |v.calls| == |u.calls| + 1 && u.calls <= v.calls
      && var c := v.calls[|u.calls|];
         c.index == i && c.arguments == args && GivenAs(id, c.id) && GivenAs(name, c.name)
  }

  lemma DecodeSnoc(ds: seq<Delta>, d: Delta)
    ensures AddsTo(Decode(ds), d, Decode(ds + [d]))
  {
    assert (ds + [d])[..|ds|] == ds;
  }

  method DecodeOaiDeltas(ds: seq<Delta>) returns (u: OaiStreamUpdate)
    ensures u == Decode(ds)
  {
    u := NO_UPDATE;
    for i := 0 to |ds|
      invariant u == Decode(ds[..i])
    {
      assert ds[..i + 1][..i] == ds[..i];
      u := Add(u, ds[i]);
    }
    assert ds[..|ds|] == ds;
  }

  function Merge(u: OaiStreamUpdate, v: OaiStreamUpdate): OaiStreamUpdate {
    OaiStreamUpdate(u.text + v.text, u.reasoning + v.reasoning, u.calls + v.calls)
  }

  lemma {:induction false} DecodeAppend(a: seq<Delta>, b: seq<Delta>)
    ensures Decode(a + b) == Merge(Decode(a), Decode(b))
    decreases |b|
  {
    if b == [] {
      assert a + b == a;
    } else {
      assert (a + b)[..|a + b| - 1] == a + b[..|b| - 1];
      DecodeAppend(a, b[..|b| - 1]);
    }
  }

  datatype AccumulatedCall = AccumulatedCall(id: Option<string>, name: Option<string>, arguments: string)

  type Calls = map<nat, AccumulatedCall>

  function FirstOf(a: Option<string>, b: Option<string>): Option<string> {
    if a.Some? then a else b
  }

  /** First id and name win, arguments are appended. */
  function Ingest(m: Calls, d: ToolCallDelta): Calls {
    var e := if d.index in m then m[d.index] else AccumulatedCall(None, None, "");
    m[d.index := AccumulatedCall(FirstOf(e.id, d.id), FirstOf(e.name, d.name), e.arguments + d.arguments)]
  }

  function IngestAll(m: Calls, ds: seq<ToolCallDelta>): Calls {
    if ds == [] then m else Ingest(IngestAll(m, ds[..|ds| - 1]), ds[|ds| - 1])
  }

  lemma {:induction false} IngestAllAppend(m: Calls, a: seq<ToolCallDelta>, b: seq<ToolCallDelta>)
    ensures IngestAll(m, a + b) == IngestAll(IngestAll(m, a), b)
    decreases |b|
  {
    if b == [] {
      assert a + b == a;
    } else {
      assert (a + b)[..|a + b| - 1] == a + b[..|b| - 1];
      IngestAllAppend(m, a, b[..|b| - 1]);
    }
  }

  /** Fragments of one call, in order. */
  function ForIndex(ds: seq<ToolCallDelta>, k: nat): seq<ToolCallDelta> {
    if ds == [] then []
    else
      var front, last := ForIndex(ds[..|ds| - 1], k), ds[|ds| - 1];
      if last.index == k then front + [last] else front
  }

  function ArgumentsOf(ds: seq<ToolCallDelta>): string {
    if ds == [] then "" else ArgumentsOf(ds[..|ds| - 1]) + ds[|ds| - 1].arguments
  }

  /** `x` is the first value given by the fragments; absent when none gives one. */
  predicate IsFirst(x: Option<string>, given: seq<Option<string>>) {
    if x.None? then forall i :: 0 <= i < |given| ==> given[i].None?
    else exists i :: 0 <= i < |given| && given[i] == x && forall j :: 0 <= j < i ==> given[j].None?
  }

  lemma IsFirstSnoc(x: Option<string>, given: seq<Option<string>>, y: Option<string>)
    requires IsFirst(x, given)
    ensures IsFirst(FirstOf(x, y), given + [y])
  {
    var all := given + [y];
    assert all[|given|] == y;
    if x.Some? {
      var i :| 0 <= i < |given| && given[i] == x && forall j :: 0 <= j < i ==> given[j].None?;
      assert all[i] == x;
    }
  }

  function Ids(ds: seq<ToolCallDelta>): (r: seq<Option<string>>)
    ensures |r| == |ds| && forall i :: 0 <= i < |r| ==> r[i] == ds[i].id
  {
    seq(|ds|, i requires 0 <= i < |ds| => ds[i].id)
  }

  function Names(ds: seq<ToolCallDelta>): (r: seq<Option<string>>)
    ensures |r| == |ds| && forall i :: 0 <= i < |r| ==> r[i] == ds[i].name
  {
    seq(|ds|, i requires 0 <= i < |ds| => ds[i].name)
  }

  /** The entry made of these fragments: its id and name are the first ones given, its
      arguments all fragments in order. */
  predicate Accumulates(c: AccumulatedCall, own: seq<ToolCallDelta>) {
    c.arguments == ArgumentsOf(own) && IsFirst(c.id, Ids(own)) && IsFirst(c.name, Names(own))
  }

  lemma AccumulatesSnoc(c: AccumulatedCall, own: seq<ToolCallDelta>, d: ToolCallDelta)
    requires Accumulates(c, own)
    ensures Accumulates(AccumulatedCall(FirstOf(c.id, d.id), FirstOf(c.name, d.name), c.arguments + d.arguments),
                        own + [d])
  {
    hide FirstOf, IsFirst;
    assert (own + [d])[..|own|] == own;
    assert Ids(own + [d]) == Ids(own) + [d.id] && Names(own + [d]) == Names(own) + [d.name];
    IsFirstSnoc(c.id, Ids(own), d.id);
    IsFirstSnoc(c.name, Names(own), d.name);
  }

  /** A call is known exactly when there was a fragment for it, and is what its
      fragments make, whatever fragments of other calls come between. */
  lemma {:induction false} IngestAllExact(ds: seq<ToolCallDelta>, k: nat)
    ensures var own, m := ForIndex(ds, k), IngestAll(map[], ds);
      (k in m <==> own != []) && (k in m ==> Accumulates(m[k], own))
    decreases |ds|
  {
    hide FirstOf, IsFirst, Accumulates;
    if ds != [] {
      var front, last := ds[..|ds| - 1], ds[|ds| - 1];
      IngestAllExact(front, k);
      NothingAccumulates();
      if last.index == k {
        var m := IngestAll(map[], front);
        AccumulatesSnoc(if k in m then m[k] else AccumulatedCall(None, None, ""), ForIndex(front, k), last);
      }
    }
  }

  lemma NothingAccumulates()
    ensures Accumulates(AccumulatedCall(None, None, ""), [])
  {
  }

  datatype ToolCallRequest = ToolCallRequest(callId: string, name: string, arguments: string)

  function Request(c: AccumulatedCall, position: nat, stamp: string): ToolCallRequest {
    ToolCallRequest(if c.id.Some? then c.id.value else CallId(position, stamp), OrEmpty(c.name), c.arguments)
  }

  /** Keys in ascending order. */
  ghost predicate Ascending(keys: seq<nat>, of: set<nat>) {
    && (forall i, j :: 0 <= i < j < |keys| ==> keys[i] < keys[j])
    && (forall k :: k in keys <==> k in of)
  }

  ghost predicate ListedBy(requests: seq<ToolCallRequest>, keys: seq<nat>, m: Calls, stamp: string) {
    && Ascending(keys, m.Keys) && |requests| == |keys|
    && forall i :: 0 <= i < |keys| ==> keys[i] in m && requests[i] == Request(m[keys[i]], i, stamp)
  }

  /** One request per call, in ascending index order. */
  ghost predicate Listed(requests: seq<ToolCallRequest>, m: Calls, stamp: string) {
    exists keys :: ListedBy(requests, keys, m, stamp)
  }

  class ToolCallAccumulator {
    var byIndex: Calls

    constructor ()
      ensures byIndex == map[]
    {
      byIndex := map[];
    }

    method IngestDelta(d: ToolCallDelta)
      modifies this
      ensures byIndex == Ingest(old(byIndex), d)
    {
      var entry := if d.index in byIndex then byIndex[d.index] else AccumulatedCall(None, None, "");
      if d.id.Some? && entry.id.None? {
        entry := entry.(id := d.id);
      }
      if d.name.Some? && entry.name.None? {
        entry := entry.(name := d.name);
      }
      byIndex := byIndex[d.index := entry.(arguments := entry.arguments + d.arguments)];
    }

    /** The calls in ascending index order. */
    method Finalize(stamp: string) returns (requests: seq<ToolCallRequest>)
      ensures Listed(requests, byIndex, stamp)
    {
      hide Request;
      requests := [];
      ghost var keys: seq<nat> := [];
      var rest := byIndex.Keys;
      while rest != {}
        invariant rest <= byIndex.Keys && |requests| == |keys|
        invariant forall i :: 0 <= i < |keys| ==>
          keys[i] in byIndex && requests[i] == Request(byIndex[keys[i]], i, stamp)
        invariant forall i, j :: 0 <= i < j < |keys| ==> keys[i] < keys[j]
        invariant forall i, k :: 0 <= i < |keys| && k in rest ==> keys[i] < k
        invariant forall k :: k in byIndex <==> k in rest || k in keys
        decreases |rest|
      {
        HasLeast(rest);
        ghost var least :| IsLeast(least, rest);
        var k :| k in rest && forall j :: j in rest ==> k <= j;
        requests := requests + [Request(byIndex[k], |requests|, stamp)];
        keys := keys + [k];
        rest := rest - {k};
      }
      assert ListedBy(requests, keys, byIndex, stamp);
    }
  }

  ghost predicate IsLeast(k: nat, s: set<nat>) {
    k in s && forall j :: j in s ==> k <= j
  }

  lemma {:induction false} HasLeast(s: set<nat>)
    requires s != {}
    ensures exists k :: IsLeast(k, s)
    decreases |s|
  {
    var x :| x in s;
    if s == {x} {
      assert IsLeast(x, s);
    } else {
      HasLeast(s - {x});
      var k :| IsLeast(k, s - {x});
      assert IsLeast(if k < x then k else x, s) by {
        assert forall j :: j in s ==> j == x || j in s - {x};
      }
    }
  }

  // ---- The receiver rebuilds the message ----

  /** Everything received so far. */
  datatype Received = Received(text: string, reasoning: string, calls: Calls)

  const NOTHING := Received("", "", map[])

  function Receive(r: Received, ds: seq<Delta>): Received {
    var u := Decode(ds);
    Received(r.text + u.text, r.reasoning + u.reasoning, IngestAll(r.calls, u.calls))
  }

  function Entry(c: ParsedToolCall, id: string): AccumulatedCall {
    AccumulatedCall(Some(id), Filled(Some(c.name)), c.arguments)
  }

  function Table(calls: seq<ParsedToolCall>, ids: seq<string>): Calls
    requires |calls| <= |ids|
  {
    map i | 0 <= i < |calls| :: Entry(calls[i], ids[i])
  }

  /** What has been received is the message last accepted, after the body of the
      generation prompt, with the ids the emitter handed out. */
  predicate Rebuilt(st: DeltaState, r: Received)
    requires ValidState(st)
  {
    && r.text == (if st.promptEmitted then st.promptBody else "") + st.previous.content
    && r.reasoning == OrEmpty(st.previous.reasoning)
    && r.calls == Table(st.previous.calls, st.callIds)
  }

  /** Nothing is taken back: text and arguments extend, known names stay. */
  predicate Grows(before: ParsedChatMsg, now: ParsedChatMsg) {
    && before.content <= now.content
    && OrEmpty(before.reasoning) <= OrEmpty(now.reasoning)
    && |before.calls| <= |now.calls|
    && ArgumentsExtend(before.calls, now.calls)
    && forall i :: 0 <= i < |before.calls| ==> before.calls[i].name == now.calls[i].name
  }

  /** Table while the deltas of an update are received: the first `i` calls carry
      their new arguments, known calls keep their name. */
  function Mixed(before: seq<ParsedToolCall>, now: seq<ParsedToolCall>, ids: seq<string>, i: nat): Calls
    requires i <= |now| <= |ids| && |before| <= |now|
  {
    map j | 0 <= j < (if i < |before| then |before| else i) ::
      Entry(ParsedToolCall(if j < |before| then before[j].name else now[j].name,
                           if j < i then now[j].arguments else before[j].arguments), ids[j])
  }

  lemma DecodeCallsStep(d: Delta, rest: seq<Delta>, m: Calls)
    requires d.Call?
    ensures IngestAll(m, Decode([d] + rest).calls)
         == IngestAll(Ingest(m, ToolCallDelta(d.index, Filled(d.id), Filled(d.name), d.arguments)), Decode(rest).calls)
  {
    DecodeAppend([d], rest);
    assert [d][..0] == [];
    var one := [ToolCallDelta(d.index, Filled(d.id), Filled(d.name), d.arguments)];
    assert Decode([d]).calls == one;
    IngestAllAppend(m, one, Decode(rest).calls);
    assert one[..0] == [];
  }

  lemma IngestNewCall(before: seq<ParsedToolCall>, now: seq<ParsedToolCall>, ids: seq<string>, i: nat)
    requires |before| <= i < |now| <= |ids| && ids[i] != ""
    ensures Ingest(Mixed(before, now, ids, i),
                   ToolCallDelta(i, Filled(Some(ids[i])), Filled(Some(now[i].name)), now[i].arguments))
         == Mixed(before, now, ids, i + 1)
  {
    assert "" + now[i].arguments == now[i].arguments;
  }

  lemma IngestKnownCall(before: seq<ParsedToolCall>, now: seq<ParsedToolCall>, ids: seq<string>, i: nat)
    requires i < |before| <= |now| <= |ids| && before[i].arguments <= now[i].arguments
    ensures Ingest(Mixed(before, now, ids, i), ToolCallDelta(i, None, None, now[i].arguments[|before[i].arguments|..]))
         == Mixed(before, now, ids, i + 1)
  {
    assert before[i].arguments + now[i].arguments[|before[i].arguments|..] == now[i].arguments;
  }

  lemma {:induction false} CallDeltasRebuild(before: seq<ParsedToolCall>, now: seq<ParsedToolCall>, ids: seq<string>,
                                             i: nat)
    requires i <= |now| <= |ids| && |before| <= |now| && ArgumentsExtend(before, now)
    requires forall j :: |before| <= j < |now| ==> ids[j] != ""
    ensures IngestAll(Mixed(before, now, ids, i), Decode(CallDeltas(before, now, ids, i)).calls)
         == Mixed(before, now, ids, |now|)
    ensures var u := Decode(CallDeltas(before, now, ids, i)); u.text == "" && u.reasoning == ""
    decreases |now| - i
  {
    hide Mixed, Decode, IngestAll, Ingest;
    var m := Mixed(before, now, ids, i);
    if i == |now| {
      NothingDecoded(m);
    } else {
      var rest := CallDeltas(before, now, ids, i + 1);
      CallDeltasRebuild(before, now, ids, i + 1);
      if i >= |before| {
        var d := Call(i, Some(ids[i]), Some(now[i].name), now[i].arguments);
        DecodeCallsStep(d, rest, m);
        CallDecodesNoText(d, rest);
        IngestNewCall(before, now, ids, i);
      } else if before[i].arguments < now[i].arguments {
        var d := Call(i, None, None, now[i].arguments[|before[i].arguments|..]);
        DecodeCallsStep(d, rest, m);
        CallDecodesNoText(d, rest);
        IngestKnownCall(before, now, ids, i);
      } else {
        SameArguments(before, now, ids, i);
        assert CallDelta(before, now, ids, i) + rest == rest;
      }
    }
  }

  lemma NothingDecoded(m: Calls)
    ensures Decode([]) == NO_UPDATE && IngestAll(m, []) == m
  {
  }

  lemma CallDecodesNoText(d: Delta, rest: seq<Delta>)
    requires d.Call?
    ensures Decode([d] + rest).text == Decode(rest).text
    ensures Decode([d] + rest).reasoning == Decode(rest).reasoning
  {
    DecodeAppend([d], rest);
    assert [d][..0] == [];
    assert "" + Decode(rest).text == Decode(rest).text;
    assert "" + Decode(rest).reasoning == Decode(rest).reasoning;
  }

  lemma SameArguments(before: seq<ParsedToolCall>, now: seq<ParsedToolCall>, ids: seq<string>, i: nat)
    requires i < |before| <= |now| <= |ids|
    requires before[i].arguments <= now[i].arguments && !(before[i].arguments < now[i].arguments)
    ensures Mixed(before, now, ids, i) == Mixed(before, now, ids, i + 1)
  {
    assert before[i].arguments == now[i].arguments;
  }

  lemma OneContent(text: string)
    ensures Decode(NonEmpty((t: string) => Content(t), text)) == OaiStreamUpdate(text, "", [])
    ensures Decode([]) == NO_UPDATE
  {
    assert [Content(text)][..0] == [];
    assert "" + text == text;
  }

  lemma OneReasoning(text: string)
    ensures Decode(NonEmpty((t: string) => Reasoning(t), text)) == OaiStreamUpdate("", text, [])
    ensures Decode([]) == NO_UPDATE
  {
    assert [Reasoning(text)][..0] == [];
    assert "" + text == text;
  }

  function TextGain(st: DeltaState, now: ParsedChatMsg): string {
    (if st.promptEmitted then "" else st.promptBody) + Gain(st.previous.content, now.content)
  }

  /** What the receiver gains when `before` becomes `now`. */
  function Gain(before: string, now: string): string {
    if before <= now then now[|before|..] else ""
  }

  function ReasoningGain(st: DeltaState, now: ParsedChatMsg): string {
    if now.reasoning.Some? then Gain(OrEmpty(st.previous.reasoning), now.reasoning.value) else ""
  }

  /** What the text deltas carry. */
  lemma TextDeltasDecode(st: DeltaState, now: ParsedChatMsg)
    ensures Decode(TextDeltas(st, now)) == OaiStreamUpdate(TextGain(st, now), "", [])
  {
    var f := (t: string) => Content(t);
    var a := if st.promptEmitted then [] else NonEmpty(f, st.promptBody);
    DecodeAppend(a, Grown(f, st.previous.content, now.content));
    OneContent(if st.promptEmitted then "" else st.promptBody);
    OneContent(Gain(st.previous.content, now.content));
  }

  lemma ReasoningDeltasDecode(st: DeltaState, now: ParsedChatMsg)
    ensures Decode(ReasoningDeltas(st, now)) == OaiStreamUpdate("", ReasoningGain(st, now), [])
  {
    OneReasoning(ReasoningGain(st, now));
  }

  lemma TableIsMixed(before: seq<ParsedToolCall>, now: seq<ParsedToolCall>, ids: seq<string>, ids': seq<string>)
    requires |ids| == |before| <= |now| == |ids'| && ids <= ids'
    ensures Table(before, ids) == Mixed(before, now, ids', 0)
  {
  }

  /** What one accepted update carries. */
  lemma UpdateDecodes(st: DeltaState, now: ParsedChatMsg, clock: nat -> string)
    requires ValidState(st) && Update(st, now, clock).1.Some?
    ensures var (st', ds) := Update(st, now, clock);
      var u := Decode(ds.value);
      && u.text == TextGain(st, now)
      && u.reasoning == ReasoningGain(st, now)
      && u.calls == Decode(CallDeltas(st.previous.calls, now.calls, st'.callIds, 0)).calls
  {
    hide Decode, TextDeltas, ReasoningDeltas, CallDeltas, TextGain, ReasoningGain, Mixed, IngestAll;
    var ids := Update(st, now, clock).0.callIds;
    var calls := CallDeltas(st.previous.calls, now.calls, ids, 0);
    TextDeltasDecode(st, now);
    ReasoningDeltasDecode(st, now);
    DecodeAppend(TextDeltas(st, now), ReasoningDeltas(st, now));
    DecodeAppend(TextDeltas(st, now) + ReasoningDeltas(st, now), calls);
    CallDeltasRebuild(st.previous.calls, now.calls, ids, 0);
    var t, g := TextGain(st, now), ReasoningGain(st, now);
    assert t + "" == t && "" + g == g && g + "" == g;
  }

  /** What one accepted update does to a receiver that was up to date. */
  lemma ReceiveUpdate(st: DeltaState, now: ParsedChatMsg, clock: nat -> string, r: Received)
    requires ValidState(st) && Rebuilt(st, r) && Update(st, now, clock).1.Some?
    ensures var (st', ds) := Update(st, now, clock);
      var after := Receive(r, ds.value);
      && after.text == r.text + TextGain(st, now)
      && after.reasoning == r.reasoning + ReasoningGain(st, now)
      && after.calls == Mixed(st.previous.calls, now.calls, st'.callIds, |now.calls|)
  {
    hide Decode, TextDeltas, ReasoningDeltas, CallDeltas, TextGain, ReasoningGain, Mixed, IngestAll, Table;
    var ids := Update(st, now, clock).0.callIds;
    UpdateDecodes(st, now, clock);
    TableIsMixed(st.previous.calls, now.calls, st.callIds, ids);
    CallDeltasRebuild(st.previous.calls, now.calls, ids, 0);
  }

  lemma MixedIsTable(before: seq<ParsedToolCall>, now: seq<ParsedToolCall>, ids: seq<string>)
    requires |before| <= |now| <= |ids|
    ensures Mixed(before, now, ids, |now|) == Table(now, ids)
       <==> forall i :: 0 <= i < |before| ==> before[i].name == now[i].name
  {
    var m, t := Mixed(before, now, ids, |now|), Table(now, ids);
    if m == t {
      forall i | 0 <= i < |before| ensures before[i].name == now[i].name {
        assert m[i] == t[i];
      }
    }
  }

  lemma GainExact(prefix: string, before: string, now: string)
    ensures prefix + before + Gain(before, now) == prefix + now <==> before <= now
  {
    assert (prefix + before)[|prefix|..] == before;
    assert (prefix + now)[|prefix|..] == now;
    if before <= now {
      assert before + now[|before|..] == now;
    }
  }

  lemma TextRebuilt(st: DeltaState, now: ParsedChatMsg, text: string)
    requires ValidState(st)
    requires text == (if st.promptEmitted then st.promptBody else "") + st.previous.content
    ensures text + TextGain(st, now) == st.promptBody + now.content <==> st.previous.content <= now.content
  {
    var gain := Gain(st.previous.content, now.content);
    GainExact(st.promptBody, st.previous.content, now.content);
    if st.promptEmitted {
      assert "" + gain == gain;
    } else {
      assert text == "";
      assert text + (st.promptBody + gain) == st.promptBody + "" + gain;
    }
  }

  lemma ReasoningRebuilt(st: DeltaState, now: ParsedChatMsg)
    ensures OrEmpty(st.previous.reasoning) + ReasoningGain(st, now) == OrEmpty(now.reasoning)
       <==> OrEmpty(st.previous.reasoning) <= OrEmpty(now.reasoning)
  {
    var was := OrEmpty(st.previous.reasoning);
    if now.reasoning.Some? {
      PlainGainExact(was, now.reasoning.value);
    } else {
      assert was + "" == was;
    }
  }

  lemma PlainGainExact(before: string, now: string)
    ensures before + Gain(before, now) == now <==> before <= now
  {
    if before <= now {
      assert before + now[|before|..] == now;
    }
  }

  /** Exactly the growing updates are passed on faithfully: a growing message is
      accepted, and an accepted message is rebuilt by the receiver if and only if
      it grew out of the previous one. */
  lemma UpdateRebuildsExactly(st: DeltaState, now: ParsedChatMsg, clock: nat -> string, r: Received)
    requires ValidState(st) && Rebuilt(st, r)
    ensures Grows(st.previous, now) ==> Update(st, now, clock).1.Some?
    ensures Update(st, now, clock).1.Some? ==>
      (Rebuilt(Update(st, now, clock).0, Receive(r, Update(st, now, clock).1.value)) <==> Grows(st.previous, now))
  {
    hide Shrinks;
    if Grows(st.previous, now) {
      GrowingDoesNotShrink(st.previous, now);
    }
    if Update(st, now, clock).1.Some? {
      AcceptedKeepsCalls(st, now, clock);
      hide Receive, Mixed, Table, TextDeltas, ReasoningDeltas, CallDeltas, TextGain, ReasoningGain;
      ReceiveUpdate(st, now, clock, r);
      MixedIsTable(st.previous.calls, now.calls, Update(st, now, clock).0.callIds);
      TextRebuilt(st, now, r.text);
      ReasoningRebuilt(st, now);
    }
  }

  // ---- Whole streams ----

  /** Emitter and receiver after a sequence of messages, ignoring refusals. */
  function Stream(promptBody: string, msgs: seq<ParsedChatMsg>,
                  clock: (nat, nat) -> string): (r: (DeltaState, Received))
    ensures ValidState(r.0) && r.0.promptBody == promptBody
  {
    if msgs == [] then (DeltaState(NO_MSG, promptBody, false, []), NOTHING)
    else
      var n := |msgs| - 1;
      var (st, r) := Stream(promptBody, msgs[..n], clock);
      var (st', ds) := Update(st, msgs[n], (i: nat) => clock(n, i));
      (st', if ds.Some? then Receive(r, ds.value) else r)
  }

  function Before(msgs: seq<ParsedChatMsg>, i: nat): ParsedChatMsg
    requires i <= |msgs|
  {
    if i == 0 then NO_MSG else msgs[i - 1]
  }

  predicate GrowingStream(msgs: seq<ParsedChatMsg>) {
    forall i :: 0 <= i < |msgs| ==> Grows(Before(msgs, i), msgs[i])
  }

  ghost predicate IsCallId(id: string, i: nat) {
    exists stamp :: id == CallId(i, stamp)
  }

  /** Ids in the order of the calls, each carrying its index. */
  ghost predicate IdsCarryIndex(ids: seq<string>) {
    forall i :: 0 <= i < |ids| ==> IsCallId(ids[i], i)
  }

  /** So no two calls share an id. */
  lemma DistinctIds(ids: seq<string>, i: nat, j: nat)
    requires IdsCarryIndex(ids) && i < |ids| && j < |ids| && ids[i] == ids[j]
    ensures i == j
  {
    assert IsCallId(ids[i], i) && IsCallId(ids[j], j);
    var a :| ids[i] == CallId(i, a);
    var b :| ids[j] == CallId(j, b);
    assert ids[i][5..] == Decimal.Show(i) + ['_'] + a;
    assert ids[j][5..] == Decimal.Show(j) + ['_'] + b;
    Decimal.ShowThenStopInjective(i, j, a, b, '_');
  }

  /** What one update does to the ids, refused or not. */
  lemma UpdateExtendsIds(st: DeltaState, now: ParsedChatMsg, clock: nat -> string)
    requires ValidState(st) && IdsCarryIndex(st.callIds)
    ensures var ids := Update(st, now, clock).0.callIds;
      st.callIds <= ids && IdsCarryIndex(ids)
  {
    hide CallId, Shrinks, ArgumentsExtend, TextDeltas, ReasoningDeltas, CallDeltas;
    var ids := Update(st, now, clock).0.callIds;
    forall i | 0 <= i < |ids| ensures IsCallId(ids[i], i) {
      if i < |st.callIds| {
        assert ids[i] == st.callIds[i];
      } else {
        assert ids[i] == CallId(i, clock(i));
      }
    }
  }

  /** Ids once handed out never change, whatever messages come. */
  lemma {:induction false} IdsAreStable(promptBody: string, msgs: seq<ParsedChatMsg>, k: nat,
                                        clock: (nat, nat) -> string)
    requires k <= |msgs|
    ensures Stream(promptBody, msgs[..k], clock).0.callIds <= Stream(promptBody, msgs, clock).0.callIds
    ensures IdsCarryIndex(Stream(promptBody, msgs, clock).0.callIds)
    decreases |msgs|
  {
    hide Receive, Update, IdsCarryIndex, GenerationPrompt.Body;
    if msgs == [] {
      NoIds();
    } else {
      var n := |msgs| - 1;
      var j := if k <= n then k else n;
      IdsAreStable(promptBody, msgs[..n], j, clock);
      UpdateExtendsIds(Stream(promptBody, msgs[..n], clock).0, msgs[n], (i: nat) => clock(n, i));
      if k <= n {
        assert msgs[..n][..k] == msgs[..k];
      } else {
        assert msgs[..k] == msgs;
      }
    }
  }

  lemma NoIds()
    ensures IdsCarryIndex([])
  {
  }

  /** In every stream the content accepted never gets shorter, in bytes, and no call
      accepted ever goes away or takes back arguments. */
  lemma {:induction false} AcceptedNeverShrinks(promptBody: string, msgs: seq<ParsedChatMsg>, k: nat,
                                                clock: (nat, nat) -> string)
    requires k <= |msgs|
    ensures var was, now := Stream(promptBody, msgs[..k], clock).0.previous, Stream(promptBody, msgs, clock).0.previous;
      && ByteLen(was.content) <= ByteLen(now.content)
      && |was.calls| <= |now.calls|
      && forall i :: 0 <= i < |was.calls| ==> was.calls[i].arguments <= now.calls[i].arguments
    decreases |msgs|
  {
    hide Receive, ByteLen, TextDeltas, ReasoningDeltas, CallDeltas, CallId;
    if k == |msgs| {
      assert msgs[..k] == msgs;
    } else {
      var n := |msgs| - 1;
      assert msgs[..n][..k] == msgs[..k];
      AcceptedNeverShrinks(promptBody, msgs[..n], k, clock);
      RefusedUpdateChangesNothing(Stream(promptBody, msgs[..n], clock).0, msgs[n], (i: nat) => clock(n, i));
    }
  }

  /** The newest message that was not refused. */
  function LastAccepted(msgs: seq<ParsedChatMsg>): ParsedChatMsg {
    if msgs == [] then NO_MSG
    else
      var before, now := LastAccepted(msgs[..|msgs| - 1]), msgs[|msgs| - 1];
      if IsRefused(before, now) then before else now
  }

  /** Message `n` is refused, or grows out of the last one accepted before it. */
  predicate RefusedOrGrown(msgs: seq<ParsedChatMsg>, n: nat)
    requires n < |msgs|
  {
    var before := LastAccepted(msgs[..n]);
    IsRefused(before, msgs[n]) || Grows(before, msgs[n])
  }

  lemma {:induction false} StreamHoldsLastAccepted(promptBody: string, msgs: seq<ParsedChatMsg>,
                                                   clock: (nat, nat) -> string)
    ensures Stream(promptBody, msgs, clock).0.previous == LastAccepted(msgs)
    decreases |msgs|
  {
    hide Receive, Shrinks, ArgumentsExtend, TextDeltas, ReasoningDeltas, CallDeltas;
    if msgs != [] {
      var n := |msgs| - 1;
      StreamHoldsLastAccepted(promptBody, msgs[..n], clock);
      RefusedUpdateChangesNothing(Stream(promptBody, msgs[..n], clock).0, msgs[n], (i: nat) => clock(n, i));
    }
  }

  /** After the first `k` messages the receiver holds exactly what the emitter last
      accepted. */
  predicate UpToDate(promptBody: string, msgs: seq<ParsedChatMsg>, clock: (nat, nat) -> string, k: nat)
    requires k <= |msgs|
  {
    var (st, r) := Stream(promptBody, msgs[..k], clock);
    Rebuilt(st, r)
  }

  /** One message: the receiver stays up to date if and only if the message is
      refused or grew. */
  lemma StaysUpToDate(promptBody: string, msgs: seq<ParsedChatMsg>, clock: (nat, nat) -> string, n: nat)
    requires n < |msgs| && UpToDate(promptBody, msgs, clock, n)
    ensures UpToDate(promptBody, msgs, clock, n + 1) <==> RefusedOrGrown(msgs, n)
  {
    hide Receive, Rebuilt, Grows, Shrinks, ArgumentsExtend, CallId, TextDeltas, ReasoningDeltas, CallDeltas;
    var front := msgs[..n + 1];
    assert front[..n] == msgs[..n];
    StreamHoldsLastAccepted(promptBody, msgs[..n], clock);
    var (st, r) := Stream(promptBody, msgs[..n], clock);
    var tick := (i: nat) => clock(n, i);
    RefusedUpdateChangesNothing(st, msgs[n], tick);
    UpdateRebuildsExactly(st, msgs[n], tick, r);
  }

  /** For every sequence of messages: the receiver is up to date throughout if and
      only if every message is refused or grows out of the last one accepted. */
  lemma {:induction false} StreamRebuildsExactly(promptBody: string, msgs: seq<ParsedChatMsg>,
                                                 clock: (nat, nat) -> string)
    ensures (forall k :: 0 <= k <= |msgs| ==> UpToDate(promptBody, msgs, clock, k))
       <==> (forall n :: 0 <= n < |msgs| ==> RefusedOrGrown(msgs, n))
  {
    hide UpToDate, RefusedOrGrown;
    if forall k :: 0 <= k <= |msgs| ==> UpToDate(promptBody, msgs, clock, k) {
      forall n | 0 <= n < |msgs| ensures RefusedOrGrown(msgs, n) {
        StaysUpToDate(promptBody, msgs, clock, n);
      }
    }
    if forall n :: 0 <= n < |msgs| ==> RefusedOrGrown(msgs, n) {
      StartsUpToDate(promptBody, msgs, clock);
      for n := 0 to |msgs|
        invariant forall k :: 0 <= k <= n ==> UpToDate(promptBody, msgs, clock, k)
      {
        StaysUpToDate(promptBody, msgs, clock, n);
      }
    }
  }

  /** The first message is always accepted, and takes the generation prompt with it. */
  lemma {:induction false} PromptIsEmitted(promptBody: string, msgs: seq<ParsedChatMsg>, clock: (nat, nat) -> string)
    ensures Stream(promptBody, msgs, clock).0.promptEmitted <==> msgs != []
    decreases |msgs|
  {
    hide Receive, TextDeltas, ReasoningDeltas, CallDeltas, CallId;
    if msgs != [] {
      PromptIsEmitted(promptBody, msgs[..|msgs| - 1], clock);
    }
  }

  lemma StartsUpToDate(promptBody: string, msgs: seq<ParsedChatMsg>, clock: (nat, nat) -> string)
    ensures UpToDate(promptBody, msgs, clock, 0)
  {
    assert msgs[..0] == [];
    assert Table([], []) == map[];
  }

  lemma {:induction false} GrowingStreamIsAccepted(msgs: seq<ParsedChatMsg>, n: nat)
    requires GrowingStream(msgs) && n <= |msgs|
    ensures LastAccepted(msgs[..n]) == Before(msgs, n)
  {
    hide Grows, IsRefused;
    if n > 0 {
      var front := msgs[..n];
      GrowingStreamIsAccepted(msgs, n - 1);
      assert front[..n - 1] == msgs[..n - 1] && front[n - 1] == msgs[n - 1];
      assert Grows(Before(msgs, n - 1), msgs[n - 1]);
      GrowingIsNotRefused(Before(msgs, n - 1), msgs[n - 1]);
    }
  }

  lemma GrowingIsNotRefused(before: ParsedChatMsg, now: ParsedChatMsg)
    requires Grows(before, now)
    ensures !IsRefused(before, now)
  {
    hide Shrinks;
    GrowingDoesNotShrink(before, now);
  }

  /** For any growing sequence of messages the receiver ends with the generation
      prompt's body followed by the final content, the final reasoning, and the final
      tool calls under the ids handed out. */
  lemma DeltasRebuildMessage(promptBody: string, msgs: seq<ParsedChatMsg>, clock: (nat, nat) -> string)
    requires GrowingStream(msgs)
    ensures var (st, r) := Stream(promptBody, msgs, clock);
      && Rebuilt(st, r)
      && st.previous == Before(msgs, |msgs|)
      && (st.promptEmitted <==> msgs != [])
  {
    hide Grows, Rebuilt, Stream, LastAccepted, Shrinks;
    forall n | 0 <= n < |msgs| ensures RefusedOrGrown(msgs, n) {
      GrowingStreamIsAccepted(msgs, n);
    }
    StreamRebuildsExactly(promptBody, msgs, clock);
    assert UpToDate(promptBody, msgs, clock, |msgs|);
    assert msgs[..|msgs|] == msgs;
    GrowingStreamIsAccepted(msgs, |msgs|);
    StreamHoldsLastAccepted(promptBody, msgs, clock);
    PromptIsEmitted(promptBody, msgs, clock);
  }

  /** The stamp under which call `i` got its id: that of the message that first
      brought it and was not refused. */
  function StampOf(msgs: seq<ParsedChatMsg>, clock: (nat, nat) -> string, i: nat): string
    requires i < |LastAccepted(msgs).calls|
  {
    var n := |msgs| - 1;
    if i < |LastAccepted(msgs[..n]).calls| then StampOf(msgs[..n], clock, i) else clock(n, i)
  }

  lemma {:induction false} IdsAreStamped(promptBody: string, msgs: seq<ParsedChatMsg>, clock: (nat, nat) -> string,
                                         i: nat)
    requires i < |LastAccepted(msgs).calls|
    ensures var ids := Stream(promptBody, msgs, clock).0.callIds;
      |ids| == |LastAccepted(msgs).calls| && ids[i] == CallId(i, StampOf(msgs, clock, i))
    decreases |msgs|
  {
    hide Receive, Shrinks, ArgumentsExtend, TextDeltas, ReasoningDeltas, CallDeltas, CallId;
    var n := |msgs| - 1;
    StreamHoldsLastAccepted(promptBody, msgs, clock);
    StreamHoldsLastAccepted(promptBody, msgs[..n], clock);
    if i < |LastAccepted(msgs[..n]).calls| {
      IdsAreStamped(promptBody, msgs[..n], clock, i);
    }
  }

  lemma StampsCarryOver(i: nat, a: string, b: string)
    ensures CallId(i, a) == CallId(i, b) <==> a == b
  {
    var prefix := "call_" + Decimal.Show(i) + "_";
    assert CallId(i, a)[|prefix|..] == a && CallId(i, b)[|prefix|..] == b;
  }

  /** The calls a finished message announces as pending, with ids stamped when that
      message is converted; no announcement without calls. */
  function PendingOf(msg: ParsedChatMsg, clock: nat -> string): Option<seq<ToolCallRequest>> {
    if msg.calls == [] then None
    else Some(seq(|msg.calls|, i requires 0 <= i < |msg.calls| =>
      ToolCallRequest(CallId(i, clock(i)), msg.calls[i].name, msg.calls[i].arguments)))
  }

  lemma TableKeys(calls: seq<ParsedToolCall>, ids: seq<string>, keys: seq<nat>)
    requires |calls| <= |ids| && Ascending(keys, Table(calls, ids).Keys)
    ensures |keys| == |calls| && forall i :: 0 <= i < |keys| ==> keys[i] == i
  {
    var n := |calls|;
    assert forall k: nat :: k in Table(calls, ids).Keys <==> k < n;
    AscendingIsIota(keys, n);
  }

  lemma EntryRequest(c: ParsedToolCall, id: string, i: nat, stamp: string)
    ensures Request(Entry(c, id), i, stamp) == ToolCallRequest(id, c.name, c.arguments)
  {
  }

  /** The rebuilt calls come out of the accumulator in order, unchanged. */
  lemma RebuiltCallsFinalize(st: DeltaState, r: Received, requests: seq<ToolCallRequest>, stamp: string)
    requires ValidState(st) && Rebuilt(st, r) && Listed(requests, r.calls, stamp)
    ensures |requests| == |st.previous.calls|
    ensures forall i :: 0 <= i < |requests| ==>
      requests[i] == ToolCallRequest(st.callIds[i], st.previous.calls[i].name, st.previous.calls[i].arguments)
  {
    hide Ascending, Request, Entry;
    var keys :| ListedBy(requests, keys, r.calls, stamp);
    TableKeys(st.previous.calls, st.callIds, keys);
    forall i | 0 <= i < |requests|
      ensures requests[i] == ToolCallRequest(st.callIds[i], st.previous.calls[i].name, st.previous.calls[i].arguments)
    {
      assert keys[i] == i;
      EntryRequest(st.previous.calls[i], st.callIds[i], i, stamp);
    }
  }

  lemma {:induction false} AscendingIsIota(keys: seq<nat>, n: nat)
    requires forall i, j :: 0 <= i < j < |keys| ==> keys[i] < keys[j]
    requires forall k: nat :: k in keys <==> k < n
    ensures |keys| == n && forall i :: 0 <= i < n ==> keys[i] == i
    decreases n
  {
    ghost var first := if keys == [] then 0 else keys[0];
    assert forall i :: 0 <= i < |keys| ==> keys[i] in keys;
    if n > 0 {
      var last := |keys| - 1;
      assert n - 1 in keys;
      assert keys[last] in keys;
      assert keys[last] == n - 1;
      var front := keys[..last];
      forall k: nat ensures k in front <==> k < n - 1 {
        if k < n - 1 {
          assert k in keys;
        }
        if k in front {
          assert k in keys;
        }
      }
      AscendingIsIota(front, n - 1);
    }
  }
}
