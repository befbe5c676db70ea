/** The two streaming workers of lib.rs put into the pipeline: what the host hears
    is what the model said. */
module EndToEnd {
  import opened Options
  import opened Text
  import opened ReasoningSplitter
  import opened StreamDeltas
  import opened Wire
  import opened Pipeline

  /** `told(k)` adds up what the first `k` sink calls emit. */
  ghost predicate AddsUp(c: Script, told: nat -> Heard) {
    && told(0) == SILENCE
    && forall k :: 0 <= k < c.calls ==> told(k + 1) == Plus(told(k), SaidAll(c.emit(k)))
  }

  lemma {:induction false} TellingAddsUp(c: Script, told: nat -> Heard, k: nat)
    requires AddsUp(c, told) && k <= c.calls
    ensures Plus(told(k), SaidAll(ItemsFrom(c, k))) == told(c.calls)
    decreases c.calls - k
  {
    hide Plus;
    if k == c.calls {
      assert SaidAll(ItemsFrom(c, k)) == SILENCE;
      PlusAssoc(told(k), SILENCE, SILENCE);
    } else {
      SaidAppend(c.emit(k), ItemsFrom(c, k + 1));
      PlusAssoc(told(k), SaidAll(c.emit(k)), SaidAll(ItemsFrom(c, k + 1)));
      TellingAddsUp(c, told, k + 1);
    }
  }

  ghost predicate AllCarriable(c: Script) {
    && Carriable(c.wire, c.finish)
    && forall k, i :: 0 <= i < |c.emit(k)| ==> Carriable(c.wire, c.emit(k)[i])
  }

  lemma {:induction false} PlanIsCarriable(c: Script, k: nat)
    requires AllCarriable(c)
    ensures forall i :: 0 <= i < |ItemsFrom(c, k)| ==> Carriable(c.wire, ItemsFrom(c, k)[i])
    decreases c.calls - k
  {
    hide Carriable;
    if k < c.calls {
      PlanIsCarriable(c, k + 1);
    }
  }

  /** A successful run lets the host hear everything the script says. */
  lemma HostHearsPlan(c: Script, told: nat -> Heard, schedule: seq<Action>)
    requires ValidScript(c) && AllCarriable(c) && AddsUp(c, told)
    requires Possible(c, START, schedule)
    ensures var s := Execute(c, START, schedule);
      s.forwarder == Returned(Ok) ==> Hear(s.delivered) == Plus(told(c.calls), Said(c.finish))
  {
    hide Carriable, Hear, Said, Plus, EncodeAll, EncodeItem;
    FaithfulDelivery(c, schedule);
    PlanIsCarriable(c, 0);
    EncodingKeepsAll(c.wire, Plan(c));
    SaidAppend(ItemsFrom(c, 0), [c.finish]);
    SaidOne(c.finish);
    TellingAddsUp(c, told, 0);
    PlusSilence(SaidAll(ItemsFrom(c, 0)));
  }

  lemma SaidOne(item: StreamItem)
    ensures SaidAll([item]) == Said(item)
  {
    hide Said;
    assert [item][..0] == [];
    PlusSilence(Said(item));
  }

  lemma PlusSilence(h: Heard)
    ensures Plus(SILENCE, h) == h
  {
    assert "" + h.text == h.text && "" + h.reasoning == h.reasoning && [] + h.calls == h.calls;
  }

  // ---- The plain worker: a reasoning splitter over the pieces ----

  /** What the splitter releases for piece `k`. */
  function Released(pieces: seq<string>, extract: bool, k: nat): Parts
    requires k < |pieces|
  {
    if !extract then Parts(pieces[k], "")
    else
      var d := FeedAll(pieces[..k]);
      Drain(d.mode, d.buffer + pieces[k]).parts
  }

  function PlainItems(p: Parts): seq<StreamItem> {
    if p.content == "" && p.reasoning == "" then [] else [Delta(p.content, p.reasoning, [])]
  }

  function Flushed(pieces: seq<string>, extract: bool): Parts {
    if !extract then Parts("", "")
    else
      var d := FeedAll(pieces);
      Only(d.mode, d.buffer)
  }

  function PlainScript(wire: StreamMethod, pieces: seq<string>, extract: bool, usage: Usage,
                       cutShort: nat -> StreamItem): Script {
    Script(wire, |pieces|,
           (k: nat) => if k < |pieces| then PlainItems(Released(pieces, extract, k)) else [],
           Final(Flushed(pieces, extract).content, Flushed(pieces, extract).reasoning, None, usage),
           cutShort, true)
  }

  function AsHeard(p: Parts): Heard {
    Heard(p.content, p.reasoning, [])
  }

  /** Everything released for the first `k` pieces. */
  function ReleasedSoFar(pieces: seq<string>, extract: bool, k: nat): Parts {
    if k > |pieces| then Parts("", "")
    else if !extract then Parts(Concat(pieces[..k]), "")
    else FeedAll(pieces[..k]).parts
  }

  lemma PlainItemsSay(p: Parts)
    ensures SaidAll(PlainItems(p)) == AsHeard(p)
  {
    if PlainItems(p) != [] {
      SaidOne(Delta(p.content, p.reasoning, []));
    }
  }

  lemma ReleasedStep(pieces: seq<string>, extract: bool, k: nat)
    requires k < |pieces|
    ensures ReleasedSoFar(pieces, extract, k + 1)
         == Join(ReleasedSoFar(pieces, extract, k), Released(pieces, extract, k))
  {
    hide Drain;
    assert pieces[..k + 1][..k] == pieces[..k];
  }

  lemma PlainAddsUp(wire: StreamMethod, pieces: seq<string>, extract: bool, usage: Usage, cutShort: nat -> StreamItem)
    requires forall k :: !cutShort(k).Delta?
    ensures var c := PlainScript(wire, pieces, extract, usage, cutShort);
      && ValidScript(c) && AllCarriable(c)
      && AddsUp(c, (k: nat) => AsHeard(ReleasedSoFar(pieces, extract, k)))
  {
    hide Released, SaidAll, Plus;
    var c := PlainScript(wire, pieces, extract, usage, cutShort);
    var told := (k: nat) => AsHeard(ReleasedSoFar(pieces, extract, k));
    assert pieces[..0] == [];
    forall k | 0 <= k < c.calls ensures told(k + 1) == Plus(told(k), SaidAll(c.emit(k))) {
      hide ReleasedSoFar;
      ReleasedStep(pieces, extract, k);
      PlainItemsSay(Released(pieces, extract, k));
      JoinIsPlus(ReleasedSoFar(pieces, extract, k), Released(pieces, extract, k));
    }
  }

  lemma JoinIsPlus(a: Parts, b: Parts)
    ensures AsHeard(Join(a, b)) == Plus(AsHeard(a), AsHeard(b))
  {
  }

  /** Whatever the interleaving, the pieces and their boundaries, a plain stream that
      ends well gives the host the one-shot split of the whole generated text - or
      the text itself when reasoning is not extracted. */
  lemma PlainStreamDeliversSplit(wire: StreamMethod, pieces: seq<string>, extract: bool, usage: Usage,
                                 cutShort: nat -> StreamItem, schedule: seq<Action>)
    requires forall k :: !cutShort(k).Delta?
    requires Possible(PlainScript(wire, pieces, extract, usage, cutShort), START, schedule)
    ensures var s := Execute(PlainScript(wire, pieces, extract, usage, cutShort), START, schedule);
      s.forwarder == Returned(Ok) ==>
        Hear(s.delivered) == AsHeard(if extract then Split(Outside, Concat(pieces)) else Parts(Concat(pieces), ""))
  {
    hide Hear, Drain, Split, Plus, Execute, Possible;
    var c := PlainScript(wire, pieces, extract, usage, cutShort);
    var told := (k: nat) => AsHeard(ReleasedSoFar(pieces, extract, k));
    PlainAddsUp(wire, pieces, extract, usage, cutShort);
    HostHearsPlan(c, told, schedule);
    assert pieces[..|pieces|] == pieces;
    ChunkingIndependence(pieces);
    JoinIsPlus(ReleasedSoFar(pieces, extract, |pieces|), Flushed(pieces, extract));
    assert Concat(pieces) + "" == Concat(pieces);
  }

  // ---- The tools worker: OAI updates ----

  /** An item that says something, and text or calls but not both. */
  predicate Speaks(item: StreamItem) {
    && item.Delta?
    && (item.text != "" || item.reasoning != "" || item.calls != [])
    && (item.calls != [] ==> item.text == "" && item.reasoning == "")
  }

  /** The workers send nothing that is empty: one item at most per piece, two at most
      per update. */
  lemma ItemsSpeak(p: Parts, u: OaiStreamUpdate)
    ensures |PlainItems(p)| <= 1 && forall i :: 0 <= i < |PlainItems(p)| ==> Speaks(PlainItems(p)[i])
    ensures |ToolItems(u)| <= 2 && forall i :: 0 <= i < |ToolItems(u)| ==> Speaks(ToolItems(u)[i])
  {
  }

  /** An update is sent in two parts, text first, since a chunk carries only one. */
  function ToolItems(u: OaiStreamUpdate): seq<StreamItem> {
    (if u.text == "" && u.reasoning == "" then [] else [Delta(u.text, u.reasoning, [])])
    + (if u.calls == [] then [] else [Delta("", "", u.calls)])
  }

  function ToolScript(updates: seq<OaiStreamUpdate>, pending: Option<seq<ToolCallRequest>>, usage: Usage,
                      cutShort: nat -> StreamItem): Script {
    Script(Chat, |updates|,
           (k: nat) => if k < |updates| then ToolItems(updates[k]) else [],
           Final("", "", pending, usage), cutShort, false)
  }

  function Sum(updates: seq<OaiStreamUpdate>): Heard {
    if updates == [] then SILENCE
    else
      var u := updates[|updates| - 1];
      Plus(Sum(updates[..|updates| - 1]), Heard(u.text, u.reasoning, u.calls))
  }

  lemma ToolItemsSay(u: OaiStreamUpdate)
    ensures SaidAll(ToolItems(u)) == Heard(u.text, u.reasoning, u.calls)
  {
    hide SaidAll;
    var a := if u.text == "" && u.reasoning == "" then [] else [Delta(u.text, u.reasoning, [])];
    var b := if u.calls == [] then [] else [Delta("", "", u.calls)];
    SaidAppend(a, b);
    SaidOne(Delta(u.text, u.reasoning, []));
    SaidOne(Delta("", "", u.calls));
    SaidNothing();
    assert u.text + "" == u.text && u.reasoning + "" == u.reasoning;
    assert [] + u.calls == u.calls && u.calls + [] == u.calls;
  }

  lemma SaidNothing()
    ensures SaidAll([]) == SILENCE
  {
  }

  lemma ToolAddsUp(updates: seq<OaiStreamUpdate>, pending: Option<seq<ToolCallRequest>>, usage: Usage,
                   cutShort: nat -> StreamItem)
    requires forall k :: !cutShort(k).Delta?
    ensures var c := ToolScript(updates, pending, usage, cutShort);
      && ValidScript(c) && AllCarriable(c)
      && AddsUp(c, (k: nat) => if k <= |updates| then Sum(updates[..k]) else SILENCE)
  {
    hide SaidAll, Plus;
    var c := ToolScript(updates, pending, usage, cutShort);
    var told := (k: nat) => if k <= |updates| then Sum(updates[..k]) else SILENCE;
    assert updates[..0] == [];
    forall k | 0 <= k < c.calls ensures told(k + 1) == Plus(told(k), SaidAll(c.emit(k))) {
      assert updates[..k + 1][..k] == updates[..k];
      ToolItemsSay(updates[k]);
    }
  }

  /** A tools stream that ends well delivers every update, text and tool calls
      alike; the terminator that drops the last text drops nothing. */
  lemma ToolStreamDeliversUpdates(updates: seq<OaiStreamUpdate>, pending: Option<seq<ToolCallRequest>>, usage: Usage,
                                  cutShort: nat -> StreamItem, schedule: seq<Action>)
    requires forall k :: !cutShort(k).Delta?
    requires Possible(ToolScript(updates, pending, usage, cutShort), START, schedule)
    ensures var s := Execute(ToolScript(updates, pending, usage, cutShort), START, schedule);
      s.forwarder == Returned(Ok) ==> Hear(s.delivered) == Sum(updates)
  {
    hide Hear, Plus, Execute, Possible, Sum;
    var c := ToolScript(updates, pending, usage, cutShort);
    ToolAddsUp(updates, pending, usage, cutShort);
    HostHearsPlan(c, (k: nat) => if k <= |updates| then Sum(updates[..k]) else SILENCE, schedule);
    assert updates[..|updates|] == updates;
    PlusAssoc(Sum(updates), SILENCE, SILENCE);
  }

  /** The updates a sequence of parsed messages gives rise to, one per sink call. */
  function UpdatesOf(promptBody: string, msgs: seq<ParsedChatMsg>,
                     clock: (nat, nat) -> string): (r: seq<OaiStreamUpdate>)
    ensures |r| == |msgs|
  {
    if msgs == [] then []
    else
      var n := |msgs| - 1;
      var ds := Update(Stream(promptBody, msgs[..n], clock).0, msgs[n], (i: nat) => clock(n, i)).1;
      UpdatesOf(promptBody, msgs[..n], clock) + [if ds.Some? then Decode(ds.value) else NO_UPDATE]
  }

  lemma {:induction false} SumIsReceived(promptBody: string, msgs: seq<ParsedChatMsg>, clock: (nat, nat) -> string)
    ensures var h := Sum(UpdatesOf(promptBody, msgs, clock));
      Stream(promptBody, msgs, clock).1 == Received(h.text, h.reasoning, IngestAll(map[], h.calls))
    decreases |msgs|
  {
    hide Update, Decode;
    if msgs != [] {
      var n := |msgs| - 1;
      SumIsReceived(promptBody, msgs[..n], clock);
      var updates := UpdatesOf(promptBody, msgs, clock);
      assert updates[..n] == UpdatesOf(promptBody, msgs[..n], clock);
      IngestAllAppend(map[], Sum(updates[..n]).calls, updates[n].calls);
    }
  }

  /** From parser to host: when every message is refused or grows out of the last one
      accepted, a tools stream that ends well lets the host rebuild the message last
      accepted - generation-prompt body and content, reasoning, and every tool call
      under its id. */
  lemma ToolStreamRebuildsMessage(promptBody: string, msgs: seq<ParsedChatMsg>, clock: (nat, nat) -> string,
                                  pending: Option<seq<ToolCallRequest>>, usage: Usage,
                                  cutShort: nat -> StreamItem, schedule: seq<Action>)
    requires msgs != [] && forall n :: 0 <= n < |msgs| ==> RefusedOrGrown(msgs, n)
    requires forall k :: !cutShort(k).Delta?
    requires Possible(ToolScript(UpdatesOf(promptBody, msgs, clock), pending, usage, cutShort), START, schedule)
    ensures
      var s := Execute(ToolScript(UpdatesOf(promptBody, msgs, clock), pending, usage, cutShort), START, schedule);
      var last, ids := LastAccepted(msgs), Stream(promptBody, msgs, clock).0.callIds;
      s.forwarder == Returned(Ok) ==>
        && Hear(s.delivered).text == promptBody + last.content
        && Hear(s.delivered).reasoning == OrEmpty(last.reasoning)
        && |ids| == |last.calls|
        && IngestAll(map[], Hear(s.delivered).calls) == Table(last.calls, ids)
  {
    hide Hear, Execute, Possible, Sum, UpdatesOf, IngestAll, Table, Stream, RefusedOrGrown;
    ToolStreamDeliversUpdates(UpdatesOf(promptBody, msgs, clock), pending, usage, cutShort, schedule);
    SumIsReceived(promptBody, msgs, clock);
    StreamRebuildsExactly(promptBody, msgs, clock);
    assert UpToDate(promptBody, msgs, clock, |msgs|);
    assert msgs[..|msgs|] == msgs;
    StreamHoldsLastAccepted(promptBody, msgs, clock);
    PromptIsEmitted(promptBody, msgs, clock);
  }

  // ---- Streamed and announced calls ----

  /** A successful run announces exactly the pending calls of its final item. */
  lemma HostHearsPending(c: Script, schedule: seq<Action>)
    requires ValidScript(c) && Possible(c, START, schedule)
    ensures var s := Execute(c, START, schedule);
      s.forwarder == Returned(Ok) ==>
        c.finish.Final? && Announced(s.delivered) == if c.finish.pending.Some? then c.finish.pending.value else []
  {
    hide Announced, EncodeAll, EncodeItem, Execute, Possible;
    FaithfulDelivery(c, schedule);
    ItemsAreDeltas(c, 0);
    if Execute(c, START, schedule).forwarder == Returned(Ok) {
      FinalAnnouncesPending(c.wire, ItemsFrom(c, 0), c.finish);
    }
  }

  /** One streamed call and the request that announces it: same name and arguments,
      and the same id if and only if both ids got the same stamp. */
  predicate SameCall(i: nat, streamed: AccumulatedCall, announced: ToolCallRequest, stamp: string, stamp': string) {
    && announced.name == OrEmpty(streamed.name)
    && announced.arguments == streamed.arguments
    && streamed.id == Some(CallId(i, stamp)) && announced.callId == CallId(i, stamp')
    && (streamed.id == Some(announced.callId) <==> stamp == stamp')
  }

  /** The script of a tools worker whose parser saw `msgs` and ended with `final`. */
  function ParserScript(promptBody: string, msgs: seq<ParsedChatMsg>, clock: (nat, nat) -> string,
                        final: ParsedChatMsg, clock': nat -> string, usage: Usage,
                        cutShort: nat -> StreamItem): Script {
    ToolScript(UpdatesOf(promptBody, msgs, clock), PendingOf(final, clock'), usage, cutShort)
  }

  /** When the final parse has the calls of the message last accepted, the host is
      told to execute exactly the calls it has streamed - but under the streamed id
      only where the id made for the announcement got the stamp of the streamed one. */
  lemma ToolStreamAnnouncesStreamed(promptBody: string, msgs: seq<ParsedChatMsg>, clock: (nat, nat) -> string,
                                    final: ParsedChatMsg, clock': nat -> string, usage: Usage,
                                    cutShort: nat -> StreamItem, schedule: seq<Action>)
    requires msgs != [] && forall n :: 0 <= n < |msgs| ==> RefusedOrGrown(msgs, n)
    requires final.calls == LastAccepted(msgs).calls
    requires forall k :: !cutShort(k).Delta?
    requires Possible(ParserScript(promptBody, msgs, clock, final, clock', usage, cutShort), START, schedule)
    ensures
      var s := Execute(ParserScript(promptBody, msgs, clock, final, clock', usage, cutShort), START, schedule);
      s.forwarder == Returned(Ok) ==>
        var streamed, announced := IngestAll(map[], Hear(s.delivered).calls), Announced(s.delivered);
        && (forall k: nat :: k in streamed <==> k < |announced|)
        && forall i :: 0 <= i < |announced| ==>
             i < |LastAccepted(msgs).calls| &&
             SameCall(i, streamed[i], announced[i], StampOf(msgs, clock, i), clock'(i))
  {
    hide Hear, Execute, Possible, UpdatesOf, IngestAll, Stream, RefusedOrGrown, Announced, SameCall, LastAccepted;
    var c := ParserScript(promptBody, msgs, clock, final, clock', usage, cutShort);
    var calls := LastAccepted(msgs).calls;
    ToolAddsUp(UpdatesOf(promptBody, msgs, clock), PendingOf(final, clock'), usage, cutShort);
    ToolStreamRebuildsMessage(promptBody, msgs, clock, PendingOf(final, clock'), usage, cutShort, schedule);
    HostHearsPending(c, schedule);
    var ids := Stream(promptBody, msgs, clock).0.callIds;
    forall i | 0 <= i < |calls| && |ids| == |calls|
      ensures SameCall(i, Table(calls, ids)[i], PendingOf(final, clock').value[i], StampOf(msgs, clock, i), clock'(i))
    {
      IdsAreStamped(promptBody, msgs, clock, i);
      StampedSameCall(calls[i], i, StampOf(msgs, clock, i), clock'(i));
    }
    if Execute(c, START, schedule).forwarder == Returned(Ok) {
      assert |Announced(Execute(c, START, schedule).delivered)| == |calls|;
    }
  }

  lemma StampedSameCall(call: ParsedToolCall, i: nat, stamp: string, stamp': string)
    ensures SameCall(i, Entry(call, CallId(i, stamp)),
                     ToolCallRequest(CallId(i, stamp'), call.name, call.arguments), stamp, stamp')
  {
    StampsCarryOver(i, stamp, stamp');
  }
}
