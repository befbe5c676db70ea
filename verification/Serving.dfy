/** The engine put behind the pipeline: what the host of a plain stream hears is the
    model's reply to this prompt alone, whatever was served before. */
module Serving {
  import opened Options
  import Text
  import Kv
  import PrefixPlan
  import Generation
  import Context
  import TextDecode
  import MediaDecode
  import Sessions
  import ReasoningSplitter
  import ExtractReasoning
  import Wire
  import Pipeline
  import EndToEnd

  /** A host that never interferes with generation; a decode may still fail by itself. */
  ghost predicate LeftAlone(h: Generation.Host) {
    && (forall n :: !h.cancelled(n))
    && (forall pieces :: !h.sinkBreaks(pieces))
    && forall n :: h.decodes(n).Failed? ==> !h.decodes(n).cancelSeen
  }

  /** The worker of a stream whose engine sends `pieces` and answers `reply`: a refusal
      or failure ends the stream with an error item. */
  function EngineScript(wire: Wire.StreamMethod, reply: TextDecode.Reply, pieces: seq<string>, extract: bool,
                        cutShort: nat -> Wire.StreamItem): Pipeline.Script {
    match reply
    case Ok(_, promptTokens, completionTokens) =>
      EndToEnd.PlainScript(wire, pieces, extract, Wire.Usage(promptTokens, completionTokens), cutShort)
    case Err =>
      EndToEnd.PlainScript(wire, pieces, extract, Wire.Usage(0, 0), cutShort).(finish := Wire.Error(""))
  }

  /** Answer and reasoning the host is to hear of a generated text. */
  function Expected(text: string, extract: bool): ReasoningSplitter.Parts {
    if extract then ReasoningSplitter.Split(ReasoningSplitter.Outside, text) else ReasoningSplitter.Parts(text, "")
  }

  lemma ErrorEndsInError(wire: Wire.StreamMethod, pieces: seq<string>, extract: bool,
                         cutShort: nat -> Wire.StreamItem, schedule: seq<Pipeline.Action>)
    requires forall k :: !cutShort(k).Delta?
    requires Pipeline.Possible(EngineScript(wire, TextDecode.Err, pieces, extract, cutShort), Pipeline.START, schedule)
    ensures Pipeline.Execute(EngineScript(wire, TextDecode.Err, pieces, extract, cutShort), Pipeline.START, schedule)
      .forwarder != Pipeline.Returned(Pipeline.Ok)
  {
    hide Pipeline.Execute, Pipeline.Possible;
    EndToEnd.PlainAddsUp(wire, pieces, extract, Wire.Usage(0, 0), cutShort);
    Pipeline.FaithfulDelivery(EngineScript(wire, TextDecode.Err, pieces, extract, cutShort), schedule);
  }

  /** A stream that ends well has delivered the whole reply, and nobody interfered. */
  lemma StreamDeliversReply(wire: Wire.StreamMethod, reply: TextDecode.Reply, pieces: seq<string>, extract: bool,
                            cutShort: nat -> Wire.StreamItem, schedule: seq<Pipeline.Action>)
    requires reply.Ok? ==> reply.text == Text.Concat(pieces)
    requires forall k :: !cutShort(k).Delta?
    requires Pipeline.Possible(EngineScript(wire, reply, pieces, extract, cutShort), Pipeline.START, schedule)
    ensures var s := Pipeline.Execute(EngineScript(wire, reply, pieces, extract, cutShort), Pipeline.START, schedule);
      s.forwarder == Pipeline.Returned(Pipeline.Ok) ==>
        && !s.flag && reply.Ok?
        && Wire.Hear(s.delivered) == EndToEnd.AsHeard(Expected(reply.text, extract))
        && Wire.UsageExactlyLast(s.delivered, Wire.Usage(reply.promptTokens, reply.completionTokens))
  {
    hide Pipeline.Execute, Pipeline.Possible, Wire.Hear, Text.Concat, ReasoningSplitter.Split;
    if reply.Err? {
      ErrorEndsInError(wire, pieces, extract, cutShort, schedule);
    } else {
      var usage := Wire.Usage(reply.promptTokens, reply.completionTokens);
      EndToEnd.PlainAddsUp(wire, pieces, extract, usage, cutShort);
      EndToEnd.PlainStreamDeliversSplit(wire, pieces, extract, usage, cutShort, schedule);
      Pipeline.OkMeansUndisturbed(EngineScript(wire, reply, pieces, extract, cutShort), schedule);
      Pipeline.OkDeliversUsage(EngineScript(wire, reply, pieces, extract, cutShort), schedule);
    }
  }

  // ---- Text ----

  /** Pieces the text engine gives to the sink. */
  function TextPieces(s: Context.KvState, r: TextDecode.TextRequest, c: TextDecode.Settings): seq<string>
    requires TextDecode.ValidText(r, c)
  {
    if TextDecode.TextGenerates(s, r, c) then Sessions.TextGenerated(s, r, c).progress.pieces else []
  }

  /** Without stop strings the reply is all that was sent; and left alone, a reply is
      a generation that ended by itself. */
  lemma TextReplyIsPieces(s: Context.KvState, r: TextDecode.TextRequest, c: TextDecode.Settings)
    requires TextDecode.ValidText(r, c) && r.stops == [] && TextDecode.TextStep(s, r, c).1.Ok?
    ensures TextDecode.TextStep(s, r, c).1.text == Text.Concat(TextPieces(s, r, c))
    ensures TextDecode.TextGenerates(s, r, c) && LeftAlone(r.host) ==>
      Sessions.TextGenerated(s, r, c).ending.Finished?
  {
    hide Generation.Generate, TextDecode.TextPrefill, TextDecode.PositionCap;
    if TextDecode.TextGenerates(s, r, c) {
      var kv := TextDecode.TextPrefill(s, r, c).kv;
      var budget := TextDecode.PositionCap(|r.tokens|, r.maxNew, r.sampleLen, c.nCtx) - |r.tokens|;
      Generation.GeneratedTextIsPieces(kv, budget, Generation.START, [], r.model, r.host);
      Generation.GenerationHeedsHost(kv, budget, Generation.START, [], r.model, r.host);
    }
  }

  /** An undisturbed request that is not refused gets to generate. */
  lemma QuietTextGenerates(s: Context.KvState, r: TextDecode.TextRequest, c: TextDecode.Settings)
    requires TextDecode.ValidText(r, c) && Sessions.Quiet(r.prefill) && TextDecode.TextStep(s, r, c).1.Ok?
    ensures TextDecode.TextGenerates(s, r, c)
  {
    hide Generation.Generate, TextDecode.Prefill, TextDecode.PositionCap;
    var start := TextDecode.TextStart(s, r, c);
    Sessions.QuietPrefillIsReady(start.0, r.tokens, start.1, c.nBatch, r.prefill, 0);
  }

  /** After any run of earlier requests, with reuse on or off: a plain text stream that
      ends well lets the host hear the split of the very reply a fresh context gives to
      this prompt, complete to its end token or cap. */
  lemma TextStreamIsFresh(qs: seq<Sessions.Request>, r: TextDecode.TextRequest, reuse: bool, c: TextDecode.Settings,
                          wire: Wire.StreamMethod, extract: bool,
                          cutShort: nat -> Wire.StreamItem, schedule: seq<Pipeline.Action>)
    requires Sessions.ValidRun(qs, c) && TextDecode.ValidText(r, c) && r.stops == []
    requires Sessions.Quiet(r.prefill) && LeftAlone(r.host) && forall k :: !cutShort(k).Delta?
    requires var st := Sessions.Run(qs, c);
      Pipeline.Possible(EngineScript(wire, TextDecode.TextStep(st, r, c).1, TextPieces(st, r, c), extract, cutShort),
                        Pipeline.START, schedule)
    ensures
      var st := Sessions.Run(qs, c);
      var script := EngineScript(wire, TextDecode.TextStep(st, r, c).1, TextPieces(st, r, c), extract, cutShort);
      var answer := TextDecode.TextStep(Sessions.INITIAL, r, c.(reuse := reuse)).1;
      var s := Pipeline.Execute(script, Pipeline.START, schedule);
      s.forwarder == Pipeline.Returned(Pipeline.Ok) ==>
        && !s.flag && answer.Ok?
        && TextDecode.TextGenerates(st, r, c) && Sessions.TextGenerated(st, r, c).ending.Finished?
        && Wire.Hear(s.delivered) == EndToEnd.AsHeard(Expected(answer.text, extract))
        && Wire.UsageExactlyLast(s.delivered, Wire.Usage(answer.promptTokens, answer.completionTokens))
  {
    hide Pipeline.Execute, Pipeline.Possible, Wire.Hear, TextDecode.TextStep, Sessions.Run, TextPieces, Expected,
         EngineScript, Sessions.TextGenerated, TextDecode.TextGenerates, LeftAlone;
    var st := Sessions.Run(qs, c);
    var reply := TextDecode.TextStep(st, r, c).1;
    if reply.Ok? {
      TextReplyIsPieces(st, r, c);
      QuietTextGenerates(st, r, c);
    }
    StreamDeliversReply(wire, reply, TextPieces(st, r, c), extract, cutShort, schedule);
    Sessions.QuietTextReplyIgnoresHistory(qs, r, reuse, c);
  }

  // ---- Media ----

  ghost function MediaPieces(s: Context.KvState, r: MediaDecode.MediaRequest, c: TextDecode.Settings): seq<string>
    requires MediaDecode.ValidMedia(r, c)
  {
    if MediaDecode.MediaGenerates(s, r, c) then Sessions.MediaGenerated(s, r, c).progress.pieces else []
  }

  lemma MediaReplyIsPieces(s: Context.KvState, r: MediaDecode.MediaRequest, c: TextDecode.Settings)
    requires MediaDecode.ValidMedia(r, c) && MediaDecode.MediaStep(s, r, c).1.Ok?
    ensures MediaDecode.MediaStep(s, r, c).1.text == Text.Concat(MediaPieces(s, r, c))
    ensures MediaDecode.MediaGenerates(s, r, c) && LeftAlone(r.host) ==>
      Sessions.MediaGenerated(s, r, c).ending.Finished?
  {
    hide Generation.Generate, MediaDecode.MediaPrefill, TextDecode.PositionCap, PrefixPlan.Describe;
    if MediaDecode.MediaGenerates(s, r, c) {
      var kv := MediaDecode.MediaPrefill(s, r, c).kv;
      var budget := TextDecode.PositionCap(|kv|, r.maxNew, r.sampleLen, c.nCtx) - |kv|;
      var host := MediaDecode.Unpolled(r.host);
      Generation.GeneratedTextIsPieces(kv, budget, Generation.START, [], r.model, host);
      Generation.GenerationHeedsHost(kv, budget, Generation.START, [], r.model, host);
    }
  }

  lemma QuietMediaGenerates(s: Context.KvState, r: MediaDecode.MediaRequest, c: TextDecode.Settings)
    requires MediaDecode.ValidMedia(r, c) && Sessions.QuietChunks(r.prefill) && MediaDecode.MediaStep(s, r, c).1.Ok?
    ensures MediaDecode.MediaGenerates(s, r, c)
  {
    hide Generation.Generate, MediaDecode.EvalFrom, TextDecode.PositionCap, PrefixPlan.Describe;
    var start := MediaDecode.MediaStart(s, r, c);
    Sessions.QuietEvalSucceeds(start.0, r.prompt.chunks, start.1, r.prefill);
  }

  /** The multimodal counterpart, when the key tells the bitmaps of the run apart. */
  lemma MediaStreamIsFresh(qs: seq<Sessions.Request>, r: MediaDecode.MediaRequest, reuse: bool, c: TextDecode.Settings,
                           bitmaps: set<Kv.Bitmap>, wire: Wire.StreamMethod, extract: bool,
                           cutShort: nat -> Wire.StreamItem, schedule: seq<Pipeline.Action>)
    requires Sessions.ValidRun(qs, c) && MediaDecode.ValidMedia(r, c)
    requires Sessions.ImagesFrom(qs, bitmaps) && PrefixPlan.DrawnFrom(r.prompt, bitmaps)
    requires PrefixPlan.Distinguishes(c.key, bitmaps)
    requires Sessions.QuietChunks(r.prefill) && LeftAlone(r.host) && forall k :: !cutShort(k).Delta?
    requires var st := Sessions.Run(qs, c);
      Pipeline.Possible(EngineScript(wire, MediaDecode.MediaStep(st, r, c).1, MediaPieces(st, r, c), extract, cutShort),
                        Pipeline.START, schedule)
    ensures
      var st := Sessions.Run(qs, c);
      var script := EngineScript(wire, MediaDecode.MediaStep(st, r, c).1, MediaPieces(st, r, c), extract, cutShort);
      var answer := MediaDecode.MediaStep(Sessions.INITIAL, r, c.(reuse := reuse)).1;
      var s := Pipeline.Execute(script, Pipeline.START, schedule);
      s.forwarder == Pipeline.Returned(Pipeline.Ok) ==>
        && !s.flag && answer.Ok?
        && MediaDecode.MediaGenerates(st, r, c) && Sessions.MediaGenerated(st, r, c).ending.Finished?
        && Wire.Hear(s.delivered) == EndToEnd.AsHeard(Expected(answer.text, extract))
        && Wire.UsageExactlyLast(s.delivered, Wire.Usage(answer.promptTokens, answer.completionTokens))
  {
    hide Pipeline.Execute, Pipeline.Possible, Wire.Hear, MediaDecode.MediaStep, Sessions.Run, MediaPieces, Expected,
         EngineScript, Sessions.MediaGenerated, MediaDecode.MediaGenerates, LeftAlone;
    var st := Sessions.Run(qs, c);
    var reply := MediaDecode.MediaStep(st, r, c).1;
    if reply.Ok? {
      MediaReplyIsPieces(st, r, c);
      QuietMediaGenerates(st, r, c);
    }
    StreamDeliversReply(wire, reply, MediaPieces(st, r, c), extract, cutShort, schedule);
    Sessions.QuietMediaReplyIgnoresHistory(qs, r, reuse, c, bitmaps);
  }

  // ---- Streamed and plain replies ----

  /** What was heard agrees with the one-shot extraction from `text`, up to trimming. */
  predicate AgreesWith(heard: Wire.Heard, text: string) {
    ExtractReasoning.Agree(ExtractReasoning.Extract(text), ReasoningSplitter.Parts(heard.text, heard.reasoning))
  }

  lemma ExpectedAgrees(text: string)
    ensures AgreesWith(EndToEnd.AsHeard(Expected(text, true)), text) <==> ExtractReasoning.SingleBlock(text)
  {
    hide ReasoningSplitter.Split, ExtractReasoning.Extract, ExtractReasoning.SingleBlock;
    ExtractReasoning.StreamingAgreesExactly(text);
  }

  /** After any run, what the host of a text stream with extracted reasoning hears
      agrees with what the request without streaming is told by a fresh context, if and
      only if that reply holds a single block of reasoning. */
  lemma TextStreamAgreesWithReply(qs: seq<Sessions.Request>, r: TextDecode.TextRequest, reuse: bool,
                                  c: TextDecode.Settings, wire: Wire.StreamMethod,
                                  cutShort: nat -> Wire.StreamItem, schedule: seq<Pipeline.Action>)
    requires Sessions.ValidRun(qs, c) && TextDecode.ValidText(r, c) && r.stops == []
    requires Sessions.Quiet(r.prefill) && LeftAlone(r.host) && forall k :: !cutShort(k).Delta?
    requires var st := Sessions.Run(qs, c);
      Pipeline.Possible(EngineScript(wire, TextDecode.TextStep(st, r, c).1, TextPieces(st, r, c), true, cutShort),
                        Pipeline.START, schedule)
    ensures
      var st := Sessions.Run(qs, c);
      var script := EngineScript(wire, TextDecode.TextStep(st, r, c).1, TextPieces(st, r, c), true, cutShort);
      var answer := TextDecode.TextStep(Sessions.INITIAL, r, c.(reuse := reuse)).1;
      var s := Pipeline.Execute(script, Pipeline.START, schedule);
      s.forwarder == Pipeline.Returned(Pipeline.Ok) ==>
        answer.Ok? && (AgreesWith(Wire.Hear(s.delivered), answer.text) <==> ExtractReasoning.SingleBlock(answer.text))
  {
    hide Pipeline.Execute, Pipeline.Possible, Wire.Hear, TextDecode.TextStep, Sessions.Run, TextPieces, Expected,
         EngineScript, AgreesWith, ExtractReasoning.SingleBlock, Sessions.TextGenerated, TextDecode.TextGenerates;
    TextStreamIsFresh(qs, r, reuse, c, wire, true, cutShort, schedule);
    var answer := TextDecode.TextStep(Sessions.INITIAL, r, c.(reuse := reuse)).1;
    if answer.Ok? {
      ExpectedAgrees(answer.text);
    }
  }

  /** The multimodal counterpart. */
  lemma MediaStreamAgreesWithReply(qs: seq<Sessions.Request>, r: MediaDecode.MediaRequest, reuse: bool,
                                   c: TextDecode.Settings, bitmaps: set<Kv.Bitmap>, wire: Wire.StreamMethod,
                                   cutShort: nat -> Wire.StreamItem, schedule: seq<Pipeline.Action>)
    requires Sessions.ValidRun(qs, c) && MediaDecode.ValidMedia(r, c)
    requires Sessions.ImagesFrom(qs, bitmaps) && PrefixPlan.DrawnFrom(r.prompt, bitmaps)
    requires PrefixPlan.Distinguishes(c.key, bitmaps)
    requires Sessions.QuietChunks(r.prefill) && LeftAlone(r.host) && forall k :: !cutShort(k).Delta?
    requires var st := Sessions.Run(qs, c);
      Pipeline.Possible(EngineScript(wire, MediaDecode.MediaStep(st, r, c).1, MediaPieces(st, r, c), true, cutShort),
                        Pipeline.START, schedule)
    ensures
      var st := Sessions.Run(qs, c);
      var script := EngineScript(wire, MediaDecode.MediaStep(st, r, c).1, MediaPieces(st, r, c), true, cutShort);
      var answer := MediaDecode.MediaStep(Sessions.INITIAL, r, c.(reuse := reuse)).1;
      var s := Pipeline.Execute(script, Pipeline.START, schedule);
      s.forwarder == Pipeline.Returned(Pipeline.Ok) ==>
        answer.Ok? && (AgreesWith(Wire.Hear(s.delivered), answer.text) <==> ExtractReasoning.SingleBlock(answer.text))
  {
    hide Pipeline.Execute, Pipeline.Possible, Wire.Hear, MediaDecode.MediaStep, Sessions.Run, MediaPieces, Expected,
         EngineScript, AgreesWith, ExtractReasoning.SingleBlock, Sessions.MediaGenerated, MediaDecode.MediaGenerates;
    MediaStreamIsFresh(qs, r, reuse, c, bitmaps, wire, true, cutShort, schedule);
    var answer := MediaDecode.MediaStep(Sessions.INITIAL, r, c.(reuse := reuse)).1;
    if answer.Ok? {
      ExpectedAgrees(answer.text);
    }
  }
}
