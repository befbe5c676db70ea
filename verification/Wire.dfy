/** Items a streaming worker produces, and the chunks the host receives (lib.rs). */
module Wire {
  import opened Options
  import opened StreamDeltas

  datatype StreamMethod = Chat | Completion

  datatype Usage = Usage(promptTokens: nat, completionTokens: nat)

  datatype StreamItem =
    | Delta(text: string, reasoning: string, calls: seq<ToolCallDelta>)
    | Final(lastText: string, lastReasoning: string, pending: Option<seq<ToolCallRequest>>, usage: Usage)
    | Error(message: string)

  /** The message content is either text or tool-call fragments, never both. */
  datatype Content = NoContent | TextContent(text: string) | CallsContent(calls: seq<ToolCallDelta>)

  datatype Chunk = Chunk(
    content: Content,
    reasoning: Option<string>,
    done: bool,
    pending: Option<seq<ToolCallRequest>>,
    usage: Option<Usage>)

  /** Completion results have no tool calls at all. */
  function EncodeChunk(method_: StreamMethod, text: string, reasoning: string, calls: seq<ToolCallDelta>,
                       done: bool, usage: Option<Usage>): Chunk {
    Chunk(if method_.Chat? && calls != [] then CallsContent(calls) else TextContent(text),
          if reasoning == "" then None else Some(reasoning), done, None, usage)
  }

  /** The tool-call decision travels on a chunk of its own, before the terminator. */
  function IntermediateChunk(pending: seq<ToolCallRequest>): Chunk {
    Chunk(NoContent, None, false, Some(pending), None)
  }

  /** Chunks sent for one item. */
  function EncodeItem(method_: StreamMethod, item: StreamItem): seq<Chunk> {
    match item
    case Delta(text, reasoning, calls) => [EncodeChunk(method_, text, reasoning, calls, false, None)]
    case Final(text, reasoning, pending, usage) =>
      if pending.Some? && pending.value != [] then
        [IntermediateChunk(pending.value), EncodeChunk(method_, "", "", [], true, Some(usage))]
      else [EncodeChunk(method_, text, reasoning, [], true, Some(usage))]
    case Error(_) => []
  }

  function EncodeAll(method_: StreamMethod, items: seq<StreamItem>): seq<Chunk> {
    if items == [] then []
    else EncodeAll(method_, items[..|items| - 1]) + EncodeItem(method_, items[|items| - 1])
  }

  lemma {:induction false} EncodeAllAppend(method_: StreamMethod, a: seq<StreamItem>, b: seq<StreamItem>)
    ensures EncodeAll(method_, a + b) == EncodeAll(method_, a) + EncodeAll(method_, b)
    decreases |b|
  {
    hide EncodeItem;
    if b == [] {
      assert a + b == a;
    } else {
      assert (a + b)[..|a + b| - 1] == a + b[..|b| - 1];
      EncodeAllAppend(method_, a, b[..|b| - 1]);
    }
  }

  lemma EncodeOne(method_: StreamMethod, item: StreamItem)
    ensures EncodeAll(method_, [item]) == EncodeItem(method_, item)
  {
    assert [item][..0] == [];
  }

  // ---- What the host can read off ----

  /** Text, reasoning and tool-call fragments. */
  datatype Heard = Heard(text: string, reasoning: string, calls: seq<ToolCallDelta>)

  const SILENCE := Heard("", "", [])

  function Plus(a: Heard, b: Heard): Heard {
    Heard(a.text + b.text, a.reasoning + b.reasoning, a.calls + b.calls)
  }

  function HearChunk(c: Chunk): Heard {
    Heard(if c.content.TextContent? then c.content.text else "",
          OrEmpty(c.reasoning),
          if c.content.CallsContent? then c.content.calls else [])
  }

  function Hear(chunks: seq<Chunk>): Heard {
    if chunks == [] then SILENCE else Plus(Hear(chunks[..|chunks| - 1]), HearChunk(chunks[|chunks| - 1]))
  }

  /** What the worker said with an item. */
  function Said(item: StreamItem): Heard {
    match item
    case Delta(text, reasoning, calls) => Heard(text, reasoning, calls)
    case Final(text, reasoning, _, _) => Heard(text, reasoning, [])
    case Error(_) => SILENCE
  }

  function SaidAll(items: seq<StreamItem>): Heard {
    if items == [] then SILENCE else Plus(SaidAll(items[..|items| - 1]), Said(items[|items| - 1]))
  }

  lemma PlusAssoc(a: Heard, b: Heard, c: Heard)
    ensures Plus(Plus(a, b), c) == Plus(a, Plus(b, c))
    ensures Plus(a, SILENCE) == a
  {
  }

  lemma {:induction false} HearAppend(a: seq<Chunk>, b: seq<Chunk>)
    ensures Hear(a + b) == Plus(Hear(a), Hear(b))
    decreases |b|
  {
    hide HearChunk, Plus;
    if b == [] {
      assert a + b == a;
      PlusAssoc(Hear(a), SILENCE, SILENCE);
    } else {
      assert (a + b)[..|a + b| - 1] == a + b[..|b| - 1];
      HearAppend(a, b[..|b| - 1]);
      PlusAssoc(Hear(a), Hear(b[..|b| - 1]), HearChunk(b[|b| - 1]));
    }
  }

  lemma {:induction false} SaidAppend(a: seq<StreamItem>, b: seq<StreamItem>)
    ensures SaidAll(a + b) == Plus(SaidAll(a), SaidAll(b))
    decreases |b|
  {
    hide Said, Plus;
    if b == [] {
      assert a + b == a;
      PlusAssoc(SaidAll(a), SILENCE, SILENCE);
    } else {
      assert (a + b)[..|a + b| - 1] == a + b[..|b| - 1];
      SaidAppend(a, b[..|b| - 1]);
      PlusAssoc(SaidAll(a), SaidAll(b[..|b| - 1]), Said(b[|b| - 1]));
    }
  }

  /** An item the wire format can carry whole: no text next to tool calls, no tool
      calls on a completion, nothing left to say next to pending tool calls. */
  predicate Carriable(method_: StreamMethod, item: StreamItem) {
    match item
    case Delta(text, _, calls) => calls == [] || (method_.Chat? && text == "")
    case Final(text, reasoning, pending, _) =>
      pending.Some? && pending.value != [] ==> text == "" && reasoning == ""
    case Error(_) => true
  }

  lemma HearOne(c: Chunk)
    ensures Hear([c]) == HearChunk(c)
  {
    assert [c][..0] == [];
    var h := HearChunk(c);
    assert "" + h.text == h.text && "" + h.reasoning == h.reasoning && [] + h.calls == h.calls;
  }

  /** The encoding loses nothing of an item if and only if it is carriable. */
  lemma EncodingKeepsExactly(method_: StreamMethod, item: StreamItem)
    ensures Hear(EncodeItem(method_, item)) == Said(item) <==> Carriable(method_, item)
  {
    hide Hear;
    match item {
      case Delta(text, reasoning, calls) =>
        HearOne(EncodeItem(method_, item)[0]);
      case Final(text, reasoning, pending, usage) =>
        if pending.Some? && pending.value != [] {
          var a, b := EncodeItem(method_, item)[0], EncodeItem(method_, item)[1];
          assert EncodeItem(method_, item) == [a] + [b];
          HearAppend([a], [b]);
          HearOne(a);
          HearOne(b);
          assert "" + "" == "";
        } else {
          HearOne(EncodeItem(method_, item)[0]);
        }
      case Error(_) =>
        HearNothing();
    }
  }

  lemma HearNothing()
    ensures Hear([]) == SILENCE
  {
  }

  lemma {:induction false} EncodingKeepsAll(method_: StreamMethod, items: seq<StreamItem>)
    requires forall i :: 0 <= i < |items| ==> Carriable(method_, items[i])
    ensures Hear(EncodeAll(method_, items)) == SaidAll(items)
    decreases |items|
  {
    if items != [] {
      var front, last := items[..|items| - 1], items[|items| - 1];
      EncodingKeepsAll(method_, front);
      EncodingKeepsExactly(method_, last);
      HearAppend(EncodeAll(method_, front), EncodeItem(method_, last));
    }
  }

  /** Exactly one chunk is marked done, the last one. */
  predicate DoneExactlyLast(chunks: seq<Chunk>) {
    chunks != [] && forall i :: 0 <= i < |chunks| ==> (chunks[i].done <==> i == |chunks| - 1)
  }

  lemma {:induction false} DeltasAreNotDone(method_: StreamMethod, items: seq<StreamItem>)
    requires forall i :: 0 <= i < |items| ==> items[i].Delta?
    ensures forall i :: 0 <= i < |EncodeAll(method_, items)| ==> !EncodeAll(method_, items)[i].done
    decreases |items|
  {
    if items != [] {
      DeltasAreNotDone(method_, items[..|items| - 1]);
    }
  }

  lemma FinalEndsItself(method_: StreamMethod, final: StreamItem)
    requires final.Final?
    ensures DoneExactlyLast(EncodeItem(method_, final))
  {
  }

  lemma FinalEndsStream(method_: StreamMethod, items: seq<StreamItem>, final: StreamItem)
    requires forall i :: 0 <= i < |items| ==> items[i].Delta?
    requires final.Final?
    ensures DoneExactlyLast(EncodeAll(method_, items + [final]))
  {
    DeltasAreNotDone(method_, items);
    assert (items + [final])[..|items|] == items;
    FinalEndsItself(method_, final);
    hide EncodeItem;
  }

  // ---- Shape ----

  /** Only a chunk that announces pending calls is without content; it says nothing
      else.  A chunk without reasoning says so instead of carrying an empty one. */
  predicate WellShaped(c: Chunk) {
    && (c.pending.Some? <==> c.content.NoContent?)
    && (c.pending.Some? ==> c.pending.value != [] && c.reasoning.None? && !c.done && c.usage.None?)
    && (c.content.CallsContent? ==> c.content.calls != [])
    && c.reasoning != Some("")
  }

  lemma ChunksAreWellShaped(method_: StreamMethod, item: StreamItem)
    ensures forall i :: 0 <= i < |EncodeItem(method_, item)| ==> WellShaped(EncodeItem(method_, item)[i])
  {
  }

  // ---- Usage ----

  /** The last chunk carries this usage, and no other carries any. */
  predicate UsageExactlyLast(chunks: seq<Chunk>, usage: Usage) {
    chunks != [] && forall i :: 0 <= i < |chunks| ==>
      chunks[i].usage == if i == |chunks| - 1 then Some(usage) else None
  }

  lemma {:induction false} DeltasCarryNoUsage(method_: StreamMethod, items: seq<StreamItem>)
    requires forall i :: 0 <= i < |items| ==> items[i].Delta?
    ensures forall i :: 0 <= i < |EncodeAll(method_, items)| ==> EncodeAll(method_, items)[i].usage.None?
    decreases |items|
  {
    if items != [] {
      DeltasCarryNoUsage(method_, items[..|items| - 1]);
    }
  }

  lemma FinalCarriesUsage(method_: StreamMethod, items: seq<StreamItem>, final: StreamItem)
    requires forall i :: 0 <= i < |items| ==> items[i].Delta?
    requires final.Final?
    ensures UsageExactlyLast(EncodeAll(method_, items + [final]), final.usage)
  {
    DeltasCarryNoUsage(method_, items);
    assert (items + [final])[..|items|] == items;
    UsageOfFinal(method_, final);
    hide EncodeItem;
  }

  lemma UsageOfFinal(method_: StreamMethod, final: StreamItem)
    requires final.Final?
    ensures UsageExactlyLast(EncodeItem(method_, final), final.usage)
  {
  }

  // ---- Pending tool calls ----

  /** All pending calls announced to the host. */
  function Announced(chunks: seq<Chunk>): seq<ToolCallRequest> {
    if chunks == [] then []
    else
      var last := chunks[|chunks| - 1];
      Announced(chunks[..|chunks| - 1]) + (if last.pending.Some? then last.pending.value else [])
  }

  lemma {:induction false} AnnouncedAppend(a: seq<Chunk>, b: seq<Chunk>)
    ensures Announced(a + b) == Announced(a) + Announced(b)
    decreases |b|
  {
    if b == [] {
      assert a + b == a;
    } else {
      assert (a + b)[..|a + b| - 1] == a + b[..|b| - 1];
      AnnouncedAppend(a, b[..|b| - 1]);
    }
  }

  lemma {:induction false} DeltasAnnounceNothing(method_: StreamMethod, items: seq<StreamItem>)
    requires forall i :: 0 <= i < |items| ==> items[i].Delta?
    ensures Announced(EncodeAll(method_, items)) == []
    decreases |items|
  {
    if items != [] {
      var front, last := items[..|items| - 1], items[|items| - 1];
      DeltasAnnounceNothing(method_, front);
      AnnouncedAppend(EncodeAll(method_, front), EncodeItem(method_, last));
      AnnouncedOne(EncodeItem(method_, last)[0]);
    }
  }

  lemma AnnouncedOne(c: Chunk)
    ensures Announced([c]) == if c.pending.Some? then c.pending.value else []
  {
    assert [c][..0] == [];
  }

  /** The pending calls of the final item are announced once, whole. */
  lemma FinalAnnouncesPending(method_: StreamMethod, items: seq<StreamItem>, final: StreamItem)
    requires forall i :: 0 <= i < |items| ==> items[i].Delta?
    requires final.Final?
    ensures Announced(EncodeAll(method_, items + [final]))
         == if final.pending.Some? then final.pending.value else []
  {
    hide Announced, EncodeAll;
    EncodeAllAppend(method_, items, [final]);
    EncodeOne(method_, final);
    DeltasAnnounceNothing(method_, items);
    AnnouncedAppend(EncodeAll(method_, items), EncodeItem(method_, final));
    var chunks := EncodeItem(method_, final);
    if |chunks| == 2 {
      assert chunks == [chunks[0]] + [chunks[1]];
      AnnouncedAppend([chunks[0]], [chunks[1]]);
      AnnouncedOne(chunks[0]);
      AnnouncedOne(chunks[1]);
    } else {
      AnnouncedOne(chunks[0]);
    }
  }
}
