/** Whole runs of one reused context, and the wrapper that owns it. */
module Sessions {
  import opened Options
  import opened Kv
  import opened Text
  import opened PrefixPlan
  import opened Generation
  import opened Context
  import opened TextDecode
  import opened MediaDecode

  datatype Request =
    | Text(text: TextRequest)
    | Media(media: MediaRequest)
    /** Refused before the context is touched (sampler, tokenizer, routing). */
    | Refused

  const INITIAL := KvState([], [], [])

  ghost predicate ValidRequest(q: Request, c: Settings) {
    match q
    case Text(r) => ValidText(r, c)
    case Media(r) => ValidMedia(r, c)
    case Refused => true
  }

  ghost function Step(s: KvState, q: Request, c: Settings): (KvState, Reply)
    requires ValidRequest(q, c)
  {
    match q
    case Text(r) => TextStep(s, r, c)
    case Media(r) => MediaStep(s, r, c)
    case Refused => (s, Err)
  }

  ghost predicate ValidRun(qs: seq<Request>, c: Settings) {
    forall i :: 0 <= i < |qs| ==> ValidRequest(qs[i], c)
  }

  /** State between requests after serving `qs` on a new context. */
  ghost function Run(qs: seq<Request>, c: Settings): KvState
    requires ValidRun(qs, c)
  {
    if qs == [] then INITIAL
    else Step(Run(qs[..|qs| - 1], c), qs[|qs| - 1], c).0
  }

  /** Between requests, whatever the images: at most one record is there, none when
      reuse is off, a text record is a prompt wholly present in the cache, and a
      multimodal one accounts for no more than the cache has. */
  predicate RecordsHold(s: KvState, c: Settings) {
    && TextRecordHolds(s)
    && ChunkRecordFits(s)
    && (s.tokens == [] || s.chunks == [])
    && (!c.reuse ==> s.tokens == [] && s.chunks == [])
  }

  /** The images of a run come from `bitmaps`. */
  predicate ImagesFrom(qs: seq<Request>, bitmaps: set<Bitmap>) {
    forall i :: 0 <= i < |qs| && qs[i].Media? ==> DrawnFrom(qs[i].media.prompt, bitmaps)
  }

  lemma AfterMediaFits(o: Outcome, g: Cache, budget: nat, r: MediaRequest, n: nat, c: Settings)
    requires ValidMedia(r, c) && |g| == Positions(r.prompt.chunks) && WithinBounds(o, g, budget, START)
    ensures RecordsHold(AfterGeneration(o, [], Describe(r.prompt, c.key), n, c.reuse).0, c)
  {
    hide Describe, Positions, Fresh;
    var d := Describe(r.prompt, c.key);
    DescribedPositions(r.prompt, c.key, |d|);
    assert d[..|d|] == d && r.prompt.chunks[..|d|] == r.prompt.chunks;
  }

  lemma AfterMediaHolds(o: Outcome, g: Cache, budget: nat, r: MediaRequest, n: nat, c: Settings, bitmaps: set<Bitmap>)
    requires ValidMedia(r, c) && DrawnFrom(r.prompt, bitmaps)
    requires g == FreshChunks(r.prompt.chunks) && WithinBounds(o, g, budget, START)
    ensures ChunkRecordHolds(AfterGeneration(o, [], Describe(r.prompt, c.key), n, c.reuse).0, c, bitmaps)
  {
    var s := AfterGeneration(o, [], Describe(r.prompt, c.key), n, c.reuse).0;
    if s.chunks != [] {
      assert Describes(r.prompt, s, c, bitmaps);
    }
  }

  lemma TextPrefillIsFresh(s: KvState, r: TextRequest, c: Settings)
    requires ValidText(r, c) && TextRecordHolds(s)
    ensures TextPrefill(s, r, c).Ready? ==> TextPrefill(s, r, c).kv == Fresh(r.tokens)
  {
    TextStartIsFresh(s, r, c);
    PrefillIsFresh(r.tokens, TextStart(s, r, c).1, c.nBatch, r.prefill, 0);
  }

  lemma MediaPrefillIsFresh(s: KvState, r: MediaRequest, c: Settings, bitmaps: set<Bitmap>)
    requires ValidMedia(r, c) && ChunkRecordHolds(s, c, bitmaps)
    requires DrawnFrom(r.prompt, bitmaps) && Distinguishes(c.key, bitmaps)
    ensures MediaPrefill(s, r, c).Evaluated? ==> MediaPrefill(s, r, c).kv == FreshChunks(r.prompt.chunks)
  {
    MediaStartIsFresh(s, r, c, bitmaps);
    EvalFromIsFresh(r.prompt.chunks, MediaStart(s, r, c).1, r.prefill);
  }

  lemma TextStepHolds(s: KvState, r: TextRequest, c: Settings)
    requires ValidText(r, c) && RecordsHold(s, c)
    ensures RecordsHold(TextStep(s, r, c).0, c)
    ensures TextStep(s, r, c).0 == s || TextStep(s, r, c).0.chunks == []
  {
    hide Generate, TextPrefill, PositionCap, Fresh;
    if TextGenerates(s, r, c) {
      TextPrefillIsFresh(s, r, c);
      var kv := TextPrefill(s, r, c).kv;
      var budget := PositionCap(|r.tokens|, r.maxNew, r.sampleLen, c.nCtx) - |r.tokens|;
      GenerateBounds(kv, budget, START, r.stops, r.model, r.host);
    }
  }

  lemma NoRecordHolds(kv: Cache, c: Settings)
    ensures RecordsHold(KvState(kv, [], []), c)
  {
  }

  lemma MediaStepHolds(s: KvState, r: MediaRequest, c: Settings)
    requires ValidMedia(r, c) && RecordsHold(s, c)
    ensures RecordsHold(MediaStep(s, r, c).0, c)
  {
    hide Generate, AfterGeneration, MediaPrefill, MediaStart, Describe, PositionCap, Positions, Fresh, ChunkRecordFits;
    NoRecordHolds(MediaStep(s, r, c).0.kv, c);
    if MediaGenerates(s, r, c) {
      MediaPrefillLength(s, r, c);
      var kv := MediaPrefill(s, r, c).kv;
      var budget := PositionCap(|kv|, r.maxNew, r.sampleLen, c.nCtx) - |kv|;
      GenerateBounds(kv, budget, START, [], r.model, Unpolled(r.host));
      AfterMediaFits(Generate(kv, budget, START, [], r.model, Unpolled(r.host)), kv, budget, r, |kv|, c);
    }
  }

  lemma MediaStepKeepsChunks(s: KvState, r: MediaRequest, c: Settings, bitmaps: set<Bitmap>)
    requires ValidMedia(r, c) && DrawnFrom(r.prompt, bitmaps) && Distinguishes(c.key, bitmaps)
    requires ChunkRecordHolds(s, c, bitmaps)
    ensures ChunkRecordHolds(MediaStep(s, r, c).0, c, bitmaps)
  {
    hide Generate, MediaPrefill, Describe, PositionCap, FreshChunks;
    if MediaGenerates(s, r, c) {
      MediaPrefillIsFresh(s, r, c, bitmaps);
      var kv := MediaPrefill(s, r, c).kv;
      var budget := PositionCap(|kv|, r.maxNew, r.sampleLen, c.nCtx) - |kv|;
      GenerateBounds(kv, budget, START, [], r.model, Unpolled(r.host));
      AfterMediaHolds(Generate(kv, budget, START, [], r.model, Unpolled(r.host)), kv, budget, r, |kv|, c, bitmaps);
    }
  }

  /** The record invariant over every run of text, multimodal and refused
      requests, however each of them ended and whatever images they brought. */
  lemma {:induction false} RunKeepsRecords(qs: seq<Request>, c: Settings)
    requires ValidRun(qs, c)
    ensures RecordsHold(Run(qs, c), c)
    decreases |qs|
  {
    hide RecordsHold, TextStep, MediaStep;
    if qs == [] {
      NothingRecorded(c);
    } else {
      var front := qs[..|qs| - 1];
      RunKeepsRecords(front, c);
      match qs[|qs| - 1] {
        case Text(r) => TextStepHolds(Run(front, c), r, c);
        case Media(r) => MediaStepHolds(Run(front, c), r, c);
        case Refused =>
      }
    }
  }

  lemma NothingRecorded(c: Settings)
    ensures RecordsHold(INITIAL, c)
  {
  }

  /** And when the key tells the images of the run apart, a multimodal record, too,
      describes a prompt wholly present in the cache. */
  lemma {:induction false} RunKeepsChunkRecord(qs: seq<Request>, c: Settings, bitmaps: set<Bitmap>)
    requires ValidRun(qs, c) && ImagesFrom(qs, bitmaps) && Distinguishes(c.key, bitmaps)
    ensures ChunkRecordHolds(Run(qs, c), c, bitmaps)
    decreases |qs|
  {
    hide Distinguishes, TextStep, MediaStep, RecordsHold, DrawnFrom;
    if qs != [] {
      var front := qs[..|qs| - 1];
      RunKeepsChunkRecord(front, c, bitmaps);
      RunKeepsRecords(front, c);
      match qs[|qs| - 1] {
        case Text(r) => TextStepHolds(Run(front, c), r, c);
        case Media(r) => MediaStepKeepsChunks(Run(front, c), r, c, bitmaps);
        case Refused =>
      }
    }
  }

  // ---- Reuse refines a full clear ----

  /** After any run, a text request that reaches generation starts it on exactly
      the cache of a fresh context, so text, token counts and everything left
      behind are those of a fresh context, with whatever batches, refusals and
      prefill timing `w` the fresh context met.  Turning reuse on never shows in
      the reply either. */
  lemma TextReuseRefinesFullClear(qs: seq<Request>, r: TextRequest, w: PrefillHost, reuse: bool, c: Settings)
    requires ValidRun(qs, c) && ValidText(r, c)
    requires TextGenerates(Run(qs, c), r, c)
    requires TextGenerates(INITIAL, r.(prefill := w), c.(reuse := reuse))
    ensures var s := Run(qs, c);
      && TextPrefill(s, r, c).kv == Fresh(r.tokens)
      && TextStep(s, r, c).1 == TextStep(INITIAL, r.(prefill := w), c.(reuse := reuse)).1
      && (c.reuse == reuse ==> TextStep(s, r, c) == TextStep(INITIAL, r.(prefill := w), c.(reuse := reuse)))
  {
    hide Generate, TextPrefill, PositionCap, Run, Fresh, ChunkRecordFits;
    RunKeepsRecords(qs, c);
    NothingRecorded(c);
    TextPrefillIsFresh(Run(qs, c), r, c);
    TextPrefillIsFresh(INITIAL, r.(prefill := w), c.(reuse := reuse));
  }

  /** The multimodal counterpart, when the bitmaps of the run do not collide. */
  lemma MediaReuseRefinesFullClear(qs: seq<Request>, r: MediaRequest, w: ChunkHost, reuse: bool,
                                   c: Settings, bitmaps: set<Bitmap>)
    requires ValidRun(qs, c) && ImagesFrom(qs, bitmaps) && Distinguishes(c.key, bitmaps)
    requires ValidMedia(r, c) && DrawnFrom(r.prompt, bitmaps)
    requires MediaGenerates(Run(qs, c), r, c)
    requires MediaGenerates(INITIAL, r.(prefill := w), c.(reuse := reuse))
    ensures var s := Run(qs, c);
      && MediaPrefill(s, r, c).kv == FreshChunks(r.prompt.chunks)
      && MediaStep(s, r, c).1 == MediaStep(INITIAL, r.(prefill := w), c.(reuse := reuse)).1
      && (c.reuse == reuse ==> MediaStep(s, r, c) == MediaStep(INITIAL, r.(prefill := w), c.(reuse := reuse)))
  {
    hide Generate, Describe, MediaPrefill, FreshChunks, PositionCap, Run;
    RunKeepsChunkRecord(qs, c, bitmaps);
    MediaPrefillIsFresh(Run(qs, c), r, c, bitmaps);
    MediaPrefillIsFresh(INITIAL, r.(prefill := w), c.(reuse := reuse), bitmaps);
  }

  /** Nobody cancels and nothing fails before generation. */
  ghost predicate Quiet(h: PrefillHost) {
    && !h.cancelledOnEntry
    && forall i :: !h.sinkBreaks(i) && h.decodes(i).Completed?
  }

  lemma {:induction false} QuietPrefillIsReady(kv: Cache, tokens: seq<Token>, pos: nat, nBatch: nat, h: PrefillHost,
                                               i: nat)
    requires pos <= |tokens| && nBatch > 0 && Quiet(h)
    ensures Prefill(kv, tokens, pos, nBatch, h, i).Ready?
    decreases |tokens| - pos
  {
    if pos < |tokens| {
      var next := Min(pos + nBatch, |tokens|);
      QuietPrefillIsReady(DecodeTokens(kv, tokens[pos..next]), tokens, next, nBatch, h, i + 1);
    }
  }

  /** With a quiet prefill a text request is answered the same after any run, on a
      fresh context, and with reuse off - refusals of its length included. */
  lemma QuietTextReplyIgnoresHistory(qs: seq<Request>, r: TextRequest, reuse: bool, c: Settings)
    requires ValidRun(qs, c) && ValidText(r, c) && Quiet(r.prefill)
    ensures TextStep(Run(qs, c), r, c).1 == TextStep(INITIAL, r, c.(reuse := reuse)).1
  {
    var s := Run(qs, c);
    RunKeepsRecords(qs, c);
    var d := c.(reuse := reuse);
    TextStartIsFresh(s, r, c);
    TextStartIsFresh(INITIAL, r, d);
    QuietPrefillIsReady(TextStart(s, r, c).0, r.tokens, TextStart(s, r, c).1, c.nBatch, r.prefill, 0);
    QuietPrefillIsReady(TextStart(INITIAL, r, d).0, r.tokens, TextStart(INITIAL, r, d).1, c.nBatch, r.prefill, 0);
    if CapFits(|r.tokens|, PositionCap(|r.tokens|, r.maxNew, r.sampleLen, c.nCtx), c.nCtx) {
      TextReuseRefinesFullClear(qs, r, r.prefill, reuse, c);
    }
  }

  /** Every chunk of the suffix is evaluated without failure. */
  ghost predicate QuietChunks(h: ChunkHost) {
    h.tokenizes && forall i :: h.evals(i).Completed?
  }

  lemma {:induction false} QuietEvalSucceeds(kv: Cache, chunks: seq<Chunk>, index: nat, h: ChunkHost)
    requires index <= |chunks| && QuietChunks(h)
    ensures EvalFrom(kv, chunks, index, h).Evaluated?
    decreases |chunks| - index
  {
    hide EvalChunk;
    if index < |chunks| {
      QuietEvalSucceeds(EvalChunk(kv, chunks[index]), chunks, index + 1, h);
    }
  }

  lemma QuietMediaPrefill(s: KvState, r: MediaRequest, c: Settings, bitmaps: set<Bitmap>)
    requires ValidMedia(r, c) && ChunkRecordHolds(s, c, bitmaps)
    requires DrawnFrom(r.prompt, bitmaps) && Distinguishes(c.key, bitmaps) && QuietChunks(r.prefill)
    ensures MediaPrefill(s, r, c) == Evaluated(FreshChunks(r.prompt.chunks))
  {
    hide FreshChunks, EvalFrom;
    MediaStartIsFresh(s, r, c, bitmaps);
    QuietEvalSucceeds(MediaStart(s, r, c).0, r.prompt.chunks, MediaStart(s, r, c).1, r.prefill);
    MediaPrefillIsFresh(s, r, c, bitmaps);
  }

  /** The reply once the prompt has been evaluated to `kv`. */
  ghost function MediaAnswer(kv: Cache, r: MediaRequest, nCtx: nat): Reply {
    var cap := PositionCap(|kv|, r.maxNew, r.sampleLen, nCtx);
    if |kv| >= cap then Err
    else AfterGeneration(Generate(kv, cap - |kv|, START, [], r.model, Unpolled(r.host)), [], [], |kv|, false).1
  }

  lemma MediaReplyFromCache(s: KvState, r: MediaRequest, c: Settings)
    requires ValidMedia(r, c) && r.prefill.tokenizes && MediaPrefill(s, r, c).Evaluated?
    ensures MediaStep(s, r, c).1 == MediaAnswer(MediaPrefill(s, r, c).kv, r, c.nCtx)
  {
    hide Generate, Describe, MediaPrefill, PositionCap;
  }

  /** With a quiet prefill a multimodal request is answered the same after any run,
      on a fresh context, and with reuse off. */
  lemma QuietMediaReplyIgnoresHistory(qs: seq<Request>, r: MediaRequest, reuse: bool, c: Settings, bitmaps: set<Bitmap>)
    requires ValidRun(qs, c) && ImagesFrom(qs, bitmaps) && Distinguishes(c.key, bitmaps)
    requires ValidMedia(r, c) && DrawnFrom(r.prompt, bitmaps) && QuietChunks(r.prefill)
    ensures MediaStep(Run(qs, c), r, c).1 == MediaStep(INITIAL, r, c.(reuse := reuse)).1
  {
    hide Describe, MediaPrefill, FreshChunks, Run, MediaStep, MediaAnswer, TextRecordHolds;
    RunKeepsChunkRecord(qs, c, bitmaps);
    QuietMediaPrefill(Run(qs, c), r, c, bitmaps);
    QuietMediaPrefill(INITIAL, r, c.(reuse := reuse), bitmaps);
    MediaReplyFromCache(Run(qs, c), r, c);
    MediaReplyFromCache(INITIAL, r, c.(reuse := reuse));
  }

  /** What a successful multimodal reply reports. */
  lemma MediaReplyCorrect(s: KvState, r: MediaRequest, c: Settings)
    requires ValidMedia(r, c) && MediaGenerates(s, r, c)
    ensures var n, o := |MediaPrefill(s, r, c).kv|, MediaGenerated(s, r, c);
      && o.progress.text == Concat(o.progress.pieces)
      && (MediaStep(s, r, c).1.Ok? ==>
            && MediaStep(s, r, c).1 == Ok(o.progress.text, n, o.progress.n)
            && n + o.progress.n <= c.nCtx
            && (r.maxNew.Some? ==> o.progress.n <= r.maxNew.value))
  {
    hide Describe, PlanChunkKeep, MatchedStop;
    var kv := MediaPrefill(s, r, c).kv;
    var budget := PositionCap(|kv|, r.maxNew, r.sampleLen, c.nCtx) - |kv|;
    GeneratedTextIsPieces(kv, budget, START, [], r.model, Unpolled(r.host));
    GenerateBounds(kv, budget, START, [], r.model, Unpolled(r.host));
  }

  /** What a successful text reply reports: the text is the pieces sent minus a
      matched stop, and the tokens counted fit both the request and the context. */
  lemma TextReplyCorrect(s: KvState, r: TextRequest, c: Settings)
    requires ValidText(r, c) && TextGenerates(s, r, c)
    ensures var o := TextGenerated(s, r, c);
      && TextIsPieces(o, r.stops)
      && (TextStep(s, r, c).1.Ok? ==>
            && TextStep(s, r, c).1.text == o.progress.text
            && TextStep(s, r, c).1.promptTokens == |r.tokens|
            && |r.tokens| + TextStep(s, r, c).1.completionTokens <= c.nCtx
            && (r.maxNew.Some? ==> TextStep(s, r, c).1.completionTokens <= r.maxNew.value))
  {
    hide Generate, TextPrefill, TextIsPieces, DecodeTokens;
    var kv := TextPrefill(s, r, c).kv;
    var budget := PositionCap(|r.tokens|, r.maxNew, r.sampleLen, c.nCtx) - |r.tokens|;
    GeneratedTextIsPieces(kv, budget, START, r.stops, r.model, r.host);
    GenerateBounds(kv, budget, START, r.stops, r.model, r.host);
  }

  /** What the text engine generates for `r` from state `s`. */
  function TextGenerated(s: KvState, r: TextRequest, c: Settings): Outcome
    requires ValidText(r, c) && TextGenerates(s, r, c)
  {
    var cap := PositionCap(|r.tokens|, r.maxNew, r.sampleLen, c.nCtx);
    Generate(TextPrefill(s, r, c).kv, cap - |r.tokens|, START, r.stops, r.model, r.host)
  }

  /** After any run, the tokens of a reply are the model's own continuation of the
      prompt alone - no token is sampled on anything an earlier request left. */
  lemma TextReplyIsModels(qs: seq<Request>, r: TextRequest, c: Settings)
    requires ValidRun(qs, c) && ValidText(r, c)
    requires TextGenerates(Run(qs, c), r, c)
    ensures var o := TextGenerated(Run(qs, c), r, c);
      && Sampled(Fresh(r.tokens), o.progress.tokens, r.model)
      && Rendered(o.progress.tokens, o.progress.pieces, r.model)
      && EndedRightly(Fresh(r.tokens), o, PositionCap(|r.tokens|, r.maxNew, r.sampleLen, c.nCtx) - |r.tokens|, r.model)
  {
    hide Generate, TextPrefill, Run, PositionCap, Sampled, Rendered, Fresh;
    RunKeepsRecords(qs, c);
    TextPrefillIsFresh(Run(qs, c), r, c);
    var budget := PositionCap(|r.tokens|, r.maxNew, r.sampleLen, c.nCtx) - |r.tokens|;
    NothingGenerated(Fresh(r.tokens), r.model);
    GenerationIsAutoregressive(Fresh(r.tokens), Fresh(r.tokens), budget, START, r.stops, r.model, r.host);
  }

  ghost function MediaGenerated(s: KvState, r: MediaRequest, c: Settings): Outcome
    requires ValidMedia(r, c) && MediaGenerates(s, r, c)
  {
    var kv := MediaPrefill(s, r, c).kv;
    Generate(kv, PositionCap(|kv|, r.maxNew, r.sampleLen, c.nCtx) - |kv|, START, [], r.model, Unpolled(r.host))
  }

  /** The multimodal counterpart. */
  lemma MediaReplyIsModels(qs: seq<Request>, r: MediaRequest, c: Settings, bitmaps: set<Bitmap>)
    requires ValidRun(qs, c) && ImagesFrom(qs, bitmaps) && Distinguishes(c.key, bitmaps)
    requires ValidMedia(r, c) && DrawnFrom(r.prompt, bitmaps)
    requires MediaGenerates(Run(qs, c), r, c)
    ensures var o := MediaGenerated(Run(qs, c), r, c); var prompt := FreshChunks(r.prompt.chunks);
      && Sampled(prompt, o.progress.tokens, r.model)
      && Rendered(o.progress.tokens, o.progress.pieces, r.model)
      && EndedRightly(prompt, o, PositionCap(|prompt|, r.maxNew, r.sampleLen, c.nCtx) - |prompt|, r.model)
  {
    hide Generate, MediaPrefill, Run, PositionCap, Sampled, Rendered, FreshChunks, Describe;
    RunKeepsChunkRecord(qs, c, bitmaps);
    MediaPrefillIsFresh(Run(qs, c), r, c, bitmaps);
    var prompt := FreshChunks(r.prompt.chunks);
    NothingGenerated(prompt, r.model);
    GenerationIsAutoregressive(prompt, prompt, PositionCap(|prompt|, r.maxNew, r.sampleLen, c.nCtx) - |prompt|,
                               START, [], r.model, Unpolled(r.host));
  }

  lemma NothingGenerated(prompt: Cache, m: Model)
    ensures GeneratedSoFar(prompt, prompt, START, m)
  {
  }

  /** Seen from outside: reuse is on, the request got to sampling, and what was sent
      ends with a stop string, or ran undisturbed up to the cap or an end token. */
  ghost predicate Completes(s: KvState, r: TextRequest, c: Settings)
    requires ValidText(r, c)
  {
    && c.reuse && TextGenerates(s, r, c)
    && EndsByItself(TextPrefill(s, r, c).kv, TextGenerated(s, r, c),
                    PositionCap(|r.tokens|, r.maxNew, r.sampleLen, c.nCtx) - |r.tokens|, r.stops, r.model, r.host)
  }

  /** A request that got past its first cancel check writes its record back exactly
      when it completes; every other way out leaves both records empty. */
  lemma RecordWrittenExactly(s: KvState, r: TextRequest, c: Settings)
    requires ValidText(r, c) && !r.prefill.cancelledOnEntry
    ensures var t := TextStep(s, r, c).0;
      && t.chunks == []
      && t.tokens == (if Completes(s, r, c) then r.tokens else [])
  {
    hide Generate, TextPrefill, PositionCap, EndsByItself, Smooth;
    if TextGenerates(s, r, c) {
      var kv := TextPrefill(s, r, c).kv;
      StartIsSmooth(kv, r.stops, r.model, r.host);
      GenerationEndsExactly(kv, kv, PositionCap(|r.tokens|, r.maxNew, r.sampleLen, c.nCtx) - |r.tokens|,
                            START, r.stops, r.model, r.host);
    }
  }

  /** When a sink that breaks still leaves a record, in whatever round it breaks:
      exactly when the text sent ends with a stop string. */
  lemma BrokenSinkRecordsExactly(s: KvState, r: TextRequest, c: Settings, k: nat)
    requires ValidText(r, c) && c.reuse && TextGenerates(s, r, c)
    requires var pieces := TextGenerated(s, r, c).progress.pieces;
      0 < k <= |pieces| && r.host.sinkBreaks(pieces[..k])
    ensures TextStep(s, r, c).0.tokens == r.tokens
       <==> exists x :: x in r.stops && x != "" && EndsWith(Concat(TextGenerated(s, r, c).progress.pieces), x)
  {
    hide TextGenerated, TextStep, TextPrefill, PositionCap, DecodeTokens, Concat, EndsWith;
    RecordWrittenExactly(s, r, c);
    var pieces := TextGenerated(s, r, c).progress.pieces;
    assert !Untouched(pieces, k - 1, r.host);
  }

  /** Why generation of a text request is an error. */
  ghost predicate TextErrs(s: KvState, r: TextRequest, c: Settings)
    requires ValidText(r, c) && TextGenerates(s, r, c)
  {
    Errs(TextPrefill(s, r, c).kv, TextGenerated(s, r, c),
         PositionCap(|r.tokens|, r.maxNew, r.sampleLen, c.nCtx) - |r.tokens|, r.stops, r.model, r.host)
  }

  /** The reply to every text request.  Cancelled on entry or during prefill, it is empty
      and no error; refused for its length or failing in prefill, it is an error; once
      it generates, it is an error exactly when a token cannot be rendered or a decode
      fails by itself, and otherwise reports the text and the tokens. */
  lemma TextReplyExactly(s: KvState, r: TextRequest, c: Settings)
    requires ValidText(r, c)
    ensures var reply, n := TextStep(s, r, c).1, |r.tokens|;
      var fits := CapFits(n, PositionCap(n, r.maxNew, r.sampleLen, c.nCtx), c.nCtx);
      var batches := |BatchPlan(r.tokens, TextStart(s, r, c).1, c.nBatch)|;
      && (r.prefill.cancelledOnEntry ==> TextStep(s, r, c) == (s, Ok("", n, 0)))
      && (!r.prefill.cancelledOnEntry && !fits ==> reply == Err)
      && (!r.prefill.cancelledOnEntry && fits ==>
            && (SomeBatchCutOff(r.prefill, 0, batches) ==> reply == Ok("", n, 0))
            && (SomeBatchFails(r.prefill, 0, batches) ==> reply == Err)
            && (Clean(r.prefill, 0, batches) <==> TextGenerates(s, r, c)))
      && (TextGenerates(s, r, c) ==>
            var o := TextGenerated(s, r, c);
            reply == if TextErrs(s, r, c) then Err else Ok(o.progress.text, n, o.progress.n))
  {
    hide Generate, Prefill, PositionCap, Errs, BatchPlan, Clean, SomeBatchCutOff, SomeBatchFails, Smooth;
    var start := TextStart(s, r, c);
    PrefillExitExactly(start.0, r.tokens, start.1, c.nBatch, r.prefill, 0);
    if TextGenerates(s, r, c) {
      var kv := TextPrefill(s, r, c).kv;
      StartIsSmooth(kv, r.stops, r.model, r.host);
      GenerationErrsExactly(kv, kv, PositionCap(|r.tokens|, r.maxNew, r.sampleLen, c.nCtx) - |r.tokens|,
                            START, r.stops, r.model, r.host);
    }
  }

  ghost predicate MediaErrs(s: KvState, r: MediaRequest, c: Settings)
    requires ValidMedia(r, c) && MediaGenerates(s, r, c)
  {
    var kv := MediaPrefill(s, r, c).kv;
    Errs(kv, MediaGenerated(s, r, c), PositionCap(|kv|, r.maxNew, r.sampleLen, c.nCtx) - |kv|,
         [], r.model, Unpolled(r.host))
  }

  /** The reply to every multimodal request, in the same way; the positions of a
      request cancelled while its chunks are evaluated are not reported. */
  lemma MediaReplyExactly(s: KvState, r: MediaRequest, c: Settings)
    requires ValidMedia(r, c) && ChunkRecordFits(s)
    ensures var reply, n := MediaStep(s, r, c).1, Positions(r.prompt.chunks);
      var from, chunks := MediaStart(s, r, c).1, |r.prompt.chunks|;
      var fits := n < PositionCap(n, r.maxNew, r.sampleLen, c.nCtx);
      && (!r.prefill.tokenizes ==> reply == Err)
      && (r.prefill.tokenizes ==>
            && (forall k: nat :: FirstFailure(r.prefill, from, k) && k < chunks ==>
                  reply == if r.prefill.evals(k).cancelSeen then Ok("", 0, 0) else Err)
            && (AllEvaluate(r.prefill, from, chunks) && !fits ==> reply == Err)
            && (AllEvaluate(r.prefill, from, chunks) && fits <==> MediaGenerates(s, r, c)))
      && (MediaGenerates(s, r, c) ==>
            var o := MediaGenerated(s, r, c);
            reply == if MediaErrs(s, r, c) then Err else Ok(o.progress.text, n, o.progress.n))
  {
    hide Generate, EvalFrom, MediaStart, PositionCap, Errs, AllEvaluate, FirstFailure, Smooth, Describe, Positions;
    var start := MediaStart(s, r, c);
    MediaStartAligned(s, r, c);
    MediaPrefillLength(s, r, c);
    EvalExitExactly(start.0, r.prompt.chunks, start.1, r.prefill);
    if MediaGenerates(s, r, c) {
      var kv := MediaPrefill(s, r, c).kv;
      StartIsSmooth(kv, [], r.model, Unpolled(r.host));
      GenerationErrsExactly(kv, kv, PositionCap(|kv|, r.maxNew, r.sampleLen, c.nCtx) - |kv|,
                            START, [], r.model, Unpolled(r.host));
    }
  }

  /** How a completed request pays off: the next text request evaluates again only
      what follows the longest prefix it shares with it, and always its last token. */
  lemma NextTextKeepsAllShared(s: KvState, r: TextRequest, next: TextRequest, c: Settings, n: nat)
    requires ValidText(r, c) && ValidText(next, c) && !r.prefill.cancelledOnEntry
    requires Completes(s, r, c) && next.prefill.removable && n <= |r.tokens|
    ensures var start := TextStart(TextStep(s, r, c).0, next, c);
      n <= start.1 <==> n < |next.tokens| && r.tokens[..n] == next.tokens[..n]
  {
    hide Generate, TextPrefill, PositionCap;
    RecordWrittenExactly(s, r, c);
    if n < |next.tokens| {
      CommonPrefixLenExact(r.tokens, next.tokens, n);
    }
  }

  ghost predicate MediaCompletes(s: KvState, r: MediaRequest, c: Settings)
    requires ValidMedia(r, c)
  {
    && c.reuse && MediaGenerates(s, r, c)
    && var kv := MediaPrefill(s, r, c).kv;
       EndsByItself(kv, MediaGenerated(s, r, c), PositionCap(|kv|, r.maxNew, r.sampleLen, c.nCtx) - |kv|,
                    [], r.model, Unpolled(r.host))
  }

  /** The multimodal engine records its prompt's description exactly when reuse is
      on and generation ran undisturbed up to the cap or an end token. */
  lemma MediaRecordWrittenExactly(s: KvState, r: MediaRequest, c: Settings)
    requires ValidMedia(r, c)
    ensures var t := MediaStep(s, r, c).0;
      && t.tokens == []
      && t.chunks == (if MediaCompletes(s, r, c) then Describe(r.prompt, c.key) else [])
  {
    hide Generate, MediaPrefill, PositionCap, Describe, EndsByItself, Smooth;
    if MediaGenerates(s, r, c) {
      var kv := MediaPrefill(s, r, c).kv;
      StartIsSmooth(kv, [], r.model, Unpolled(r.host));
      GenerationEndsExactly(kv, kv, PositionCap(|kv|, r.maxNew, r.sampleLen, c.nCtx) - |kv|,
                            START, [], r.model, Unpolled(r.host));
    }
  }

  lemma {:induction false} PositionsArePositive(chunks: seq<Chunk>, n: nat)
    requires 0 < n <= |chunks| && forall i :: 0 <= i < |chunks| ==> NPos(chunks[i]) > 0
    ensures Positions(chunks[..n]) > 0
  {
    assert chunks[..n][n - 1] == chunks[n - 1];
  }

  /** The next multimodal request evaluates again only the chunks after the longest
      run of provably identical ones, and always its last chunk. */
  lemma NextMediaKeepsAllShared(s: KvState, r: MediaRequest, next: MediaRequest, c: Settings, n: nat)
    requires ValidMedia(r, c) && ValidMedia(next, c) && MediaCompletes(s, r, c)
    requires next.prefill.removable && n <= |r.prompt.chunks|
    ensures var start := MediaStart(MediaStep(s, r, c).0, next, c);
      var was, now := Describe(r.prompt, c.key), Describe(next.prompt, c.key);
      n <= start.1 <==> n < |now| && was[..n] == now[..n] && forall i :: 0 <= i < n ==> Reusable(was[i])
  {
    hide MediaPrefill, PositionCap, MediaStep, Describe;
    MediaRecordWrittenExactly(s, r, c);
    var was, now := Describe(r.prompt, c.key), Describe(next.prompt, c.key);
    PlanChunkKeepExact(was, next.prompt, c.key, n);
    var plan := PlanChunkKeep(was, now, NPosOf(next.prompt.chunks), true);
    if plan.0 > 0 {
      PositionsArePositive(next.prompt.chunks, plan.0);
    }
  }

  /** It does happen: a stop string completed by the very piece at which the sink
      asked to stop is not a cancellation, and the record is written back. */
  lemma StopBeatsCancel(s: KvState, r: TextRequest, c: Settings)
    requires ValidText(r, c) && c.reuse && TextGenerates(s, r, c)
    requires var first := r.model.sample(TextPrefill(s, r, c).kv, []);
      && !r.host.cancelled(0) && !r.model.endOfGeneration(first)
      && r.model.piece([first]).Some?
      && MatchedStop(r.model.piece([first]).value, r.stops).Some?
      && r.host.sinkBreaks([r.model.piece([first]).value])
    ensures TextStep(s, r, c).0.tokens == r.tokens
    ensures TextStep(s, r, c).1.Ok? && TextStep(s, r, c).1.completionTokens == 1
  {
    var first := r.model.sample(TextPrefill(s, r, c).kv, []);
    assert [] + [first] == [first];
    var piece := r.model.piece([first]).value;
    assert "" + piece == piece;
  }

  // ---- When multimodal reuse is right ----

  /** A request with the prompt of one image: nothing interferes, and the model ends
      at once. */
  function ImageRequest(b: Bitmap): MediaRequest {
    MediaRequest(ImagePrompt(b), Some(1), None,
                 Model((kv: Cache, tokens: seq<Token>) => 0, (token: Token) => true, (tokens: seq<Token>) => None),
                 ChunkHost(true, true, (n: nat) => Completed),
                 Host((n: nat) => false, (pieces: seq<string>) => false, (n: nat) => Completed))
  }

  /** The context has room for the prompt of this image and a token. */
  predicate HasRoomFor(b: Bitmap, c: Settings) {
    ValidSettings(c) && Positions(ImagePrompt(b).chunks) < c.nCtx
  }

  lemma ImageRequestIsValid(b: Bitmap, c: Settings)
    requires Usable(b) && HasRoomFor(b, c)
    ensures ValidMedia(ImageRequest(b), c) && QuietChunks(ImageRequest(b).prefill)
    ensures DrawnFrom(ImageRequest(b).prompt, {b}) && Distinguishes(c.key, {b})
  {
    ImagePromptIsTokenized(b);
  }

  lemma EagerModelEnds(b: Bitmap, kv: Cache, budget: nat)
    requires budget > 0
    ensures var r := ImageRequest(b);
      Generate(kv, budget, START, [], r.model, Unpolled(r.host)) == Outcome(kv, START, Finished)
  {
  }

  /** The request leaves its image in the cache and in the record. */
  lemma ImageIsRecorded(b: Bitmap, c: Settings)
    requires c.reuse && Usable(b) && HasRoomFor(b, c)
    ensures ValidMedia(ImageRequest(b), c)
    ensures var p := ImagePrompt(b);
      MediaStep(INITIAL, ImageRequest(b), c).0 == KvState(FreshChunks(p.chunks), [], Describe(p, c.key))
  {
    hide Generate, MediaPrefill, Describe, Positions, FreshChunks, Tokenized, DrawnFrom, Distinguishes, PositionCap;
    var r := ImageRequest(b);
    ImageRequestIsValid(b, c);
    QuietMediaPrefill(INITIAL, r, c, {b});
    FreshLength(r.prompt.chunks);
    var kv := MediaPrefill(INITIAL, r, c).kv;
    var cap := PositionCap(|kv|, r.maxNew, r.sampleLen, c.nCtx);
    CapFitsExactly(|kv|, 1, None, c.nCtx);
    EagerModelEnds(b, kv, cap - |kv|);
  }

  lemma FreshLength(chunks: seq<Chunk>)
    ensures |FreshChunks(chunks)| == Positions(chunks)
  {
  }

  /** Once an image is recorded, the prompt of a lookalike is evaluated on its cells. */
  lemma LookalikeIsConfused(a: Bitmap, b: Bitmap, c: Settings)
    requires c.reuse && a != b && LooksLike(a, b, c.key) && HasRoomFor(a, c) && HasRoomFor(b, c)
    ensures ValidMedia(ImageRequest(b), c)
    ensures var p := ImagePrompt(a); var s := KvState(FreshChunks(p.chunks), [], Describe(p, c.key));
      && MediaPrefill(s, ImageRequest(b), c).Evaluated?
      && MediaPrefill(s, ImageRequest(b), c).kv != FreshChunks(ImagePrompt(b).chunks)
  {
    hide MediaPrefill, EvalChunks, Tokenized, PlanKeepsFresh, Positions, MatchLen, EvalFrom;
    var p, q := ImagePrompt(a), ImagePrompt(b);
    var s := KvState(FreshChunks(p.chunks), [], Describe(p, c.key));
    ImageRequestIsValid(b, c);
    LookalikesAreUsable(a, b, c.key);
    RecordFits(p, c);
    MediaStartAligned(s, ImageRequest(b), c);
    MediaPrefillLength(s, ImageRequest(b), c);
    ImagePrefillSucceeds(s, b, c);
    var e := MediaPrefill(s, ImageRequest(b), c);
    CollisionReusesWrongImage(a, b, c.key);
    if e.kv == FreshChunks(q.chunks) {
      KeptThenFresh(s, a, b, c, e.kv);
    }
  }

  lemma RecordFits(p: Prompt, c: Settings)
    ensures ChunkRecordFits(KvState(FreshChunks(p.chunks), [], Describe(p, c.key)))
  {
    hide Describe, Positions;
    var d := Describe(p, c.key);
    DescribedPositions(p, c.key, |d|);
    assert d[..|d|] == d && p.chunks[..|d|] == p.chunks;
    FreshLength(p.chunks);
  }

  lemma ImagePrefillSucceeds(s: KvState, b: Bitmap, c: Settings)
    requires ValidMedia(ImageRequest(b), c) && ChunkRecordFits(s)
    ensures MediaPrefill(s, ImageRequest(b), c).Evaluated?
  {
    hide EvalFrom, MediaStart;
    var r := ImageRequest(b);
    MediaStartAligned(s, r, c);
    QuietEvalSucceeds(MediaStart(s, r, c).0, r.prompt.chunks, MediaStart(s, r, c).1, r.prefill);
  }

  /** If the result were right, so were the kept cells it starts with. */
  lemma KeptThenFresh(s: KvState, a: Bitmap, b: Bitmap, c: Settings, kv: Cache)
    requires c.reuse && ValidMedia(ImageRequest(b), c)
    requires s == KvState(FreshChunks(ImagePrompt(a).chunks), [], Describe(ImagePrompt(a), c.key))
    requires ChunkRecordFits(s) && MediaStart(s, ImageRequest(b), c).0 <= kv == FreshChunks(ImagePrompt(b).chunks)
    ensures PlanKeepsFresh(ImagePrompt(a), ImagePrompt(b), c.key)
  {
    hide EvalChunks, Tokenized, Positions, MatchLen, Describe;
    var r := ImageRequest(b);
    MediaStartAligned(s, r, c);
    var plan := PlanChunkKeep(s.chunks, Describe(r.prompt, c.key), NPosOf(r.prompt.chunks), true);
    assert s.chunks != [];
    PlanChunkKeepExact(s.chunks, r.prompt, c.key, plan.0);
    EvalTrim([], r.prompt.chunks, plan.0);
    NothingEvaluated(r.prompt.chunks);
  }

  /** Request `r` after the run `qs` is evaluated to the cache of a fresh context. */
  ghost predicate StartsFresh(qs: seq<Request>, r: MediaRequest, c: Settings)
    requires ValidRun(qs, c) && ValidMedia(r, c)
  {
    var e := MediaPrefill(Run(qs, c), r, c);
    e.Evaluated? ==> e.kv == FreshChunks(r.prompt.chunks)
  }

  ghost predicate MediaAlwaysFresh(c: Settings, bitmaps: set<Bitmap>) {
    forall qs, r :: ValidRun(qs, c) && ImagesFrom(qs, bitmaps) && ValidMedia(r, c) && DrawnFrom(r.prompt, bitmaps) ==>
      StartsFresh(qs, r, c)
  }

  /** With reuse on and room for the images, every multimodal request after every run
      over a set of images starts fresh if and only if no two different images look
      alike.  Two lookalikes are confused by a run of one request. */
  lemma MediaReuseSoundExactly(c: Settings, bitmaps: set<Bitmap>)
    requires c.reuse && forall b :: b in bitmaps && Usable(b) ==> HasRoomFor(b, c)
    ensures MediaAlwaysFresh(c, bitmaps) <==> Distinguishes(c.key, bitmaps)
  {
    hide Run, MediaPrefill, FreshChunks, LooksLike;
    if Distinguishes(c.key, bitmaps) {
      forall qs, r | ValidRun(qs, c) && ImagesFrom(qs, bitmaps) && ValidMedia(r, c) && DrawnFrom(r.prompt, bitmaps)
        ensures StartsFresh(qs, r, c)
      {
        RunKeepsChunkRecord(qs, c, bitmaps);
        MediaPrefillIsFresh(Run(qs, c), r, c, bitmaps);
      }
    } else {
      var a, b :| a in bitmaps && b in bitmaps && LooksLike(a, b, c.key) && a != b;
      LookalikesAreUsable(a, b, c.key);
      ConfusingRun(a, b, c);
      var qs := [Media(ImageRequest(a))];
      assert ImagesFrom(qs, bitmaps) && DrawnFrom(ImageRequest(b).prompt, bitmaps);
    }
  }

  lemma ConfusingRun(a: Bitmap, b: Bitmap, c: Settings)
    requires c.reuse && a != b && LooksLike(a, b, c.key) && HasRoomFor(a, c) && HasRoomFor(b, c)
    ensures ValidRun([Media(ImageRequest(a))], c) && ValidMedia(ImageRequest(b), c)
    ensures !StartsFresh([Media(ImageRequest(a))], ImageRequest(b), c)
  {
    hide MediaPrefill, MediaStep, FreshChunks, Describe;
    var qs := [Media(ImageRequest(a))];
    LookalikesAreUsable(a, b, c.key);
    ImageIsRecorded(a, c);
    assert qs[..|qs| - 1] == [];
    assert Run(qs, c) == MediaStep(INITIAL, ImageRequest(a), c).0;
    LookalikeIsConfused(a, b, c);
  }

  // ---- The wrapper ----

  /** Owner of the context slot; `bitmaps` stands for the images it will be shown.  A
      request takes the context out of the slot and puts it back on every way out. */
  class LlamaModelWrapper {
    const settings: Settings
    ghost const bitmaps: set<Bitmap>
    var context: SyncContext?

    constructor (settings: Settings, ghost bitmaps: set<Bitmap>)
      requires ValidSettings(settings)
      ensures this.settings == settings && this.bitmaps == bitmaps
      ensures Valid() && context == null
    {
      this.settings := settings;
      this.bitmaps := bitmaps;
      context := null;
    }

    ghost function State(): KvState
      reads this, context
    {
      if context == null then INITIAL else context.State()
    }

    ghost predicate Valid()
      reads this, context
    {
      && ValidSettings(settings)
      && (context != null ==> context.nCtx == settings.nCtx && context.nBatch == settings.nBatch)
      && RecordsHold(State(), settings)
      && (Distinguishes(settings.key, bitmaps) ==> ChunkRecordHolds(State(), settings, bitmaps))
    }

    /** Build the context on first use; this may fail. */
    method EnsureContext(available: bool) returns (ok: bool)
      requires Valid()
      modifies this`context
      ensures Valid() && State() == old(State())
      ensures ok == (context != null) == (available || old(context) != null)
      ensures old(context) != null ==> context == old(context)
      ensures old(context) == null && context != null ==> fresh(context)
    {
      if context == null && available {
        context := new SyncContext(settings.nCtx, settings.nBatch);
      }
      ok := context != null;
    }

    method RunText(r: TextRequest, available: bool) returns (reply: Reply)
      requires Valid() && ValidText(r, settings)
      modifies this, context
      ensures Valid()
      ensures old(context) != null ==> context == old(context)
      ensures available || old(context) != null ==> (State(), reply) == TextStep(old(State()), r, settings)
      ensures available && old(context) == null && !r.prefill.cancelledOnEntry ==> context != null && fresh(context)
      ensures (!available || r.prefill.cancelledOnEntry) && old(context) == null ==> context == null
      ensures !available && old(context) == null && !r.prefill.cancelledOnEntry ==> reply == Err
      ensures r.prefill.cancelledOnEntry ==> reply == Ok("", |r.tokens|, 0)
    {
      if r.prefill.cancelledOnEntry {
        return Ok("", |r.tokens|, 0);
      }
      var ok := EnsureContext(available);
      if !ok {
        return Err;
      }
      TextStepHolds(State(), r, settings);
      var taken := context;
      context := null;
      reply := DecodeTextOnly(taken, r, settings);
      context := taken;
    }

    method RunMedia(r: MediaRequest, available: bool) returns (reply: Reply)
      requires Valid() && ValidMedia(r, settings) && DrawnFrom(r.prompt, bitmaps)
      modifies this, context
      ensures Valid()
      ensures old(context) != null ==> context == old(context)
      ensures available || old(context) != null ==> (State(), reply) == MediaStep(old(State()), r, settings)
      ensures available && old(context) == null ==> context != null && fresh(context)
      ensures !available && old(context) == null ==> context == null && reply == Err
    {
      var ok := EnsureContext(available);
      if !ok {
        return Err;
      }
      MediaStepHolds(State(), r, settings);
      if Distinguishes(settings.key, bitmaps) {
        MediaStepKeepsChunks(State(), r, settings, bitmaps);
      }
      var taken := context;
      context := null;
      reply := DecodeMultimodal(taken, r, settings);
      context := taken;
    }
  }
}
