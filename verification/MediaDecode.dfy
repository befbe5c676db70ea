/** The multimodal engine: trim to whole chunks, evaluate the rest, generate
    (decode.rs, and runtime.rs of mtmd-support). */
module MediaDecode {
  import opened Options
  import opened Kv
  import opened PrefixPlan
  import opened Generation
  import opened Context
  import opened TextDecode

  /** What happens before generation: tokenization may fail, the model may refuse
      partial removal, and chunk `index` is evaluated or fails. */
  datatype ChunkHost = ChunkHost(tokenizes: bool, removable: bool, evals: nat -> DecodeStatus)

  datatype MediaRequest = MediaRequest(
    prompt: Prompt,
    maxNew: Option<int>,
    sampleLen: Option<int>,
    model: Model,
    prefill: ChunkHost,
    host: Host)

  predicate ValidMedia(r: MediaRequest, c: Settings) {
    && Tokenized(r.prompt) && Positions(r.prompt.chunks) <= I32_MAX
    && (r.maxNew.Some? ==> IsI32(r.maxNew.value))
    && (r.sampleLen.Some? ==> IsI32(r.sampleLen.value))
    && ValidSettings(c)
  }

  datatype ChunkExit =
    | Evaluated(kv: Cache)
    | Failure(kv: Cache, cancelSeen: bool)

  /** Chunks `index ..` on top of `kv`. */
  function EvalFrom(kv: Cache, chunks: seq<Chunk>, index: nat, h: ChunkHost): ChunkExit
    requires index <= |chunks|
    decreases |chunks| - index
  {
    if index == |chunks| then Evaluated(kv)
    else
      match h.evals(index)
      case Failed(left, seen) => Failure(left, seen)
      case Completed => EvalFrom(EvalChunk(kv, chunks[index]), chunks, index + 1, h)
  }

  lemma {:induction false} EvalFromIsFresh(chunks: seq<Chunk>, index: nat, h: ChunkHost)
    requires index <= |chunks|
    ensures var e := EvalFrom(FreshChunks(chunks[..index]), chunks, index, h);
      e.Evaluated? ==> e.kv == FreshChunks(chunks)
    decreases |chunks| - index
  {
    if index == |chunks| {
      assert chunks[..index] == chunks;
    } else {
      assert chunks[..index + 1][..index] == chunks[..index];
      EvalFromIsFresh(chunks, index + 1, h);
    }
  }

  /** How the evaluation of chunks ends, from outside: it succeeds exactly when every
      chunk does, and otherwise reports whether the first failure came with a cancel. */
  lemma {:induction false} EvalExitExactly(kv: Cache, chunks: seq<Chunk>, index: nat, h: ChunkHost)
    requires index <= |chunks|
    ensures var e := EvalFrom(kv, chunks, index, h);
      && (e.Evaluated? <==> AllEvaluate(h, index, |chunks|))
      && (e.Failure? <==> SomeFailure(h, index, |chunks|))
      && forall k: nat :: FirstFailure(h, index, k) && k < |chunks| ==>
           e == Failure(h.evals(k).left, h.evals(k).cancelSeen)
    decreases |chunks| - index
  {
    hide EvalChunk;
    if index < |chunks| {
      if h.evals(index).Completed? {
        EvalExitExactly(EvalChunk(kv, chunks[index]), chunks, index + 1, h);
        forall k: nat ensures FirstFailure(h, index, k) <==> FirstFailure(h, index + 1, k) {
          FailureAfter(h, index, k);
        }
        SomeFailureAfter(h, index, |chunks|);
      } else {
        assert FirstFailure(h, index, index);
      }
    }
  }

  lemma FailureAfter(h: ChunkHost, index: nat, k: nat)
    requires h.evals(index).Completed?
    ensures FirstFailure(h, index, k) <==> FirstFailure(h, index + 1, k)
  {
  }

  ghost predicate SomeFailure(h: ChunkHost, from: nat, to: nat) {
    exists k: nat :: FirstFailure(h, from, k) && k < to
  }

  lemma SomeFailureAfter(h: ChunkHost, index: nat, to: nat)
    requires h.evals(index).Completed?
    ensures SomeFailure(h, index, to) <==> SomeFailure(h, index + 1, to)
  {
    if SomeFailure(h, index, to) {
      var k: nat :| FirstFailure(h, index, k) && k < to;
      FailureAfter(h, index, k);
    }
    if SomeFailure(h, index + 1, to) {
      var k: nat :| FirstFailure(h, index + 1, k) && k < to;
      FailureAfter(h, index, k);
    }
  }

  predicate AllEvaluate(h: ChunkHost, from: nat, to: nat) {
    forall k :: from <= k < to ==> h.evals(k).Completed?
  }

  /** Chunk `k` is the first one from `from` on that fails. */
  predicate FirstFailure(h: ChunkHost, from: nat, k: nat) {
    from <= k && AllEvaluate(h, from, k) && h.evals(k).Failed?
  }

  /** The multimodal loop never polls the flag at its head and knows no stop
      strings; otherwise it is the text loop. */
  function Unpolled(h: Host): Host {
    h.(cancelled := (n: nat) => false)
  }

  /** Cache, first chunk to evaluate and position evaluation starts from. */
  ghost function MediaStart(s: KvState, r: MediaRequest, c: Settings): (Cache, nat, nat)
    requires ValidMedia(r, c)
  {
    var plan := PlanChunkKeep(s.chunks, Describe(r.prompt, c.key), NPosOf(r.prompt.chunks), c.reuse);
    if plan.1 > 0 && r.prefill.removable then (Trim(s.kv, plan.1), plan.0, plan.1) else ([], 0, 0)
  }

  lemma MediaFullClear(s: KvState, r: MediaRequest, c: Settings)
    requires ValidMedia(r, c) && (!c.reuse || s.chunks == [] || !r.prefill.removable)
    ensures MediaStart(s, r, c) == ([], 0, 0)
  {
  }

  ghost function MediaPrefill(s: KvState, r: MediaRequest, c: Settings): ChunkExit
    requires ValidMedia(r, c)
  {
    var start := MediaStart(s, r, c);
    EvalFrom(start.0, r.prompt.chunks, start.1, r.prefill)
  }

  ghost function MediaStep(s: KvState, r: MediaRequest, c: Settings): (KvState, Reply)
    requires ValidMedia(r, c)
  {
    if !r.prefill.tokenizes then (KvState(s.kv, [], []), Err)
    else
      match MediaPrefill(s, r, c)
      case Failure(kv, seen) => (KvState(kv, [], []), if seen then Ok("", 0, 0) else Err)
      case Evaluated(kv) =>
        var cap := PositionCap(|kv|, r.maxNew, r.sampleLen, c.nCtx);
        if |kv| >= cap then (KvState(kv, [], []), Err)
        else
          AfterGeneration(Generate(kv, cap - |kv|, START, [], r.model, Unpolled(r.host)),
                          [], Describe(r.prompt, c.key), |kv|, c.reuse)
  }

  /** The multimodal path adds up its budget the same way: once the prompt is
      evaluated, an overflow is an error that leaves no record. */
  lemma MediaOverflowIsRefused(s: KvState, r: MediaRequest, c: Settings)
    requires ValidMedia(r, c) && r.prefill.tokenizes && MediaPrefill(s, r, c).Evaluated?
    requires var n := |MediaPrefill(s, r, c).kv|;
      n <= I32_MAX && r.maxNew.Some? && n + r.maxNew.value > I32_MAX
    ensures MediaStep(s, r, c).1 == Err
    ensures MediaStep(s, r, c).0.tokens == [] && MediaStep(s, r, c).0.chunks == []
  {
    hide MediaPrefill, Describe;
    CapFitsExactly(|MediaPrefill(s, r, c).kv|, r.maxNew.value, r.sampleLen, c.nCtx);
  }

  ghost predicate MediaGenerates(s: KvState, r: MediaRequest, c: Settings)
    requires ValidMedia(r, c)
  {
    && r.prefill.tokenizes
    && MediaPrefill(s, r, c).Evaluated?
    && var n := |MediaPrefill(s, r, c).kv|; n < PositionCap(n, r.maxNew, r.sampleLen, c.nCtx)
  }

  /** A multimodal record describes some earlier prompt whose cells are the start
      of the cache. */
  ghost predicate Describes(p: Prompt, s: KvState, c: Settings, bitmaps: set<Bitmap>) {
    && Tokenized(p) && DrawnFrom(p, bitmaps)
    && Describe(p, c.key) == s.chunks
    && FreshChunks(p.chunks) <= s.kv
  }

  ghost predicate ChunkRecordHolds(s: KvState, c: Settings, bitmaps: set<Bitmap>) {
    s.chunks != [] ==> exists p :: Describes(p, s, c, bitmaps)
  }

  /** What the engine relies on even when images are confused: a multimodal record
      accounts for no more positions than the cache has. */
  predicate ChunkRecordFits(s: KvState) {
    RecordedPositions(s.chunks) <= |s.kv|
  }

  /** Whatever the images, evaluation starts where the kept cells end. */
  lemma MediaStartAligned(s: KvState, r: MediaRequest, c: Settings)
    requires ValidMedia(r, c) && ChunkRecordFits(s)
    ensures var start := MediaStart(s, r, c);
      && start.1 < |r.prompt.chunks|
      && start.2 == |start.0| == Positions(r.prompt.chunks[..start.1])
  {
    hide Describe, NPos, MediaOf, Tiles, Usable, MatchLen, RecordedPositions;
    var chunks := r.prompt.chunks;
    assert chunks[..0] == [];
    var d := Describe(r.prompt, c.key);
    var plan := PlanChunkKeep(s.chunks, d, NPosOf(chunks), c.reuse);
    if plan.1 > 0 {
      PlanChunkKeepExact(s.chunks, r.prompt, c.key, plan.0);
      DescribedPositions(r.prompt, c.key, plan.0);
      RecordedPrefix(s.chunks, plan.0);
    }
  }

  lemma {:induction false} EvalFromLength(kv: Cache, chunks: seq<Chunk>, index: nat, h: ChunkHost)
    requires index <= |chunks| && |kv| == Positions(chunks[..index])
    ensures var e := EvalFrom(kv, chunks, index, h); e.Evaluated? ==> |e.kv| == Positions(chunks) && kv <= e.kv
    decreases |chunks| - index
  {
    if index == |chunks| {
      assert chunks[..index] == chunks;
    } else {
      assert chunks[..index + 1][..index] == chunks[..index];
      EvalFromLength(EvalChunk(kv, chunks[index]), chunks, index + 1, h);
    }
  }

  lemma MediaPrefillLength(s: KvState, r: MediaRequest, c: Settings)
    requires ValidMedia(r, c) && ChunkRecordFits(s)
    ensures var e := MediaPrefill(s, r, c);
      e.Evaluated? ==> |e.kv| == Positions(r.prompt.chunks) && MediaStart(s, r, c).0 <= e.kv
  {
    hide MediaStart, EvalFrom;
    MediaStartAligned(s, r, c);
    var start := MediaStart(s, r, c);
    EvalFromLength(start.0, r.prompt.chunks, start.1, r.prefill);
  }

  lemma NothingEvaluated(chunks: seq<Chunk>)
    ensures FreshChunks(chunks[..0]) == []
  {
    assert chunks[..0] == [];
  }

  /** What the plan keeps is the start of the new prompt's own cache. */
  lemma MediaStartIsFresh(s: KvState, r: MediaRequest, c: Settings, bitmaps: set<Bitmap>)
    requires ValidMedia(r, c) && ChunkRecordHolds(s, c, bitmaps)
    requires DrawnFrom(r.prompt, bitmaps) && Distinguishes(c.key, bitmaps)
    ensures var start := MediaStart(s, r, c);
      && start.1 < |r.prompt.chunks|
      && start.0 == FreshChunks(r.prompt.chunks[..start.1])
      && start.2 == |start.0|
  {
    hide Describe, NPos, MediaOf, Tiles, Usable, DrawnFrom, Distinguishes, MatchLen, EvalChunks;
    var chunks := r.prompt.chunks;
    NothingEvaluated(chunks);
    var plan := PlanChunkKeep(s.chunks, Describe(r.prompt, c.key), NPosOf(chunks), c.reuse);
    if plan.1 > 0 {
      assert s.chunks != [];
      var p :| Describes(p, s, c, bitmaps);
      PlannedChunksAreFresh(p, r.prompt, c.key, bitmaps);
      assert s.kv[..plan.1] == FreshChunks(p.chunks)[..plan.1];
    }
  }

  // ---- The engine ----

  predicate LastHasLogits(outputs: seq<bool>) {
    outputs != [] && outputs[|outputs| - 1]
  }

  /** One chunk through `mtmd_helper_eval_chunk_single`: `nPast` must be where the
      cache ends. */
  method EvalOne(ctx: SyncContext, chunks: seq<Chunk>, index: nat, nPast: nat, logitsLast: bool, status: DecodeStatus)
    returns (ok: bool, newPast: nat)
    requires index < |chunks| && |ctx.kv| == nPast && NPos(chunks[index]) > 0
    modifies ctx`kv, ctx`outputs, ctx`evaluated
    ensures ok == status.Completed?
    ensures ctx.kv == if ok then EvalChunk(old(ctx.kv), chunks[index]) else status.left
    ensures ctx.evaluated == old(ctx.evaluated) + [ChunkEval(index, nPast, logitsLast)]
    ensures ok ==> newPast == nPast + NPos(chunks[index]) == |ctx.kv|
    ensures ok ==> ctx.outputs != [] && forall i :: 0 <= i < |ctx.outputs| ==>
      (ctx.outputs[i] <==> logitsLast && i == |ctx.outputs| - 1)
  {
    var chunk := chunks[index];
    ctx.evaluated := ctx.evaluated + [ChunkEval(index, nPast, logitsLast)];
    match status {
      case Completed =>
        ok := true;
        ctx.kv := EvalChunk(ctx.kv, chunk);
        ctx.outputs := seq(NPos(chunk), i => logitsLast && i == NPos(chunk) - 1);
        newPast := nPast + NPos(chunk);
      case Failed(left, _) =>
        ok := false;
        ctx.kv := left;
        newPast := nPast;
    }
  }

  /** `log` holds one entry per chunk from `start` to `to`, in order and end to end
      from position `from` up to `end`; only the very last chunk of the prompt asks
      for logits. */
  predicate LogCovers(log: seq<ChunkEval>, chunks: seq<Chunk>, start: nat, to: nat, from: nat, end: nat)
    requires start <= to <= |chunks|
  {
    && |log| == to - start
    && (forall i :: 0 <= i < |log| ==>
          log[i].index == start + i && (log[i].logitsLast <==> start + i == |chunks| - 1))
    && (log != [] ==> log[0].past == from)
    && (forall i :: 0 < i < |log| ==> log[i].past == log[i - 1].past + NPos(chunks[start + i - 1]))
    && end == if log == [] then from else log[|log| - 1].past + NPos(chunks[to - 1])
  }

  lemma LogCoversNothing(chunks: seq<Chunk>, start: nat, from: nat)
    requires start <= |chunks|
    ensures LogCovers([], chunks, start, start, from, from)
  {
  }

  lemma LogCoversNext(log: seq<ChunkEval>, chunks: seq<Chunk>, start: nat, to: nat, from: nat, end: nat)
    requires start <= to < |chunks| && LogCovers(log, chunks, start, to, from, end)
    ensures LogCovers(log + [ChunkEval(to, end, to + 1 == |chunks|)],
                      chunks, start, to + 1, from, end + NPos(chunks[to]))
  {
  }

  /** `eval_chunks_from`: only the final chunk asks for logits, and only for its
      last position. */
  method EvalChunksFrom(ctx: SyncContext, chunks: seq<Chunk>, start: nat, from: nat, h: ChunkHost)
    returns (exit: ChunkExit, nPast: nat)
    requires start < |chunks| && |ctx.kv| == from
    requires forall i :: 0 <= i < |chunks| ==> NPos(chunks[i]) > 0
    modifies ctx`kv, ctx`outputs, ctx`evaluated
    ensures exit.Evaluated? ==>
      && old(ctx.evaluated) <= ctx.evaluated
      && LogCovers(ctx.evaluated[|old(ctx.evaluated)|..], chunks, start, |chunks|, from, nPast)
    ensures exit == EvalFrom(old(ctx.kv), chunks, start, h)
    ensures exit.kv == ctx.kv
    ensures exit.Evaluated? ==> nPast == |ctx.kv| && LastHasLogits(ctx.outputs)
  {
    hide EvalChunk, LogCovers, NPos;
    nPast := from;
    var index := start;
    ghost var log: seq<ChunkEval> := [];
    LogCoversNothing(chunks, start, from);
    while index < |chunks|
      invariant start <= index <= |chunks| && nPast == |ctx.kv|
      invariant EvalFrom(old(ctx.kv), chunks, start, h) == EvalFrom(ctx.kv, chunks, index, h)
      invariant start < index == |chunks| ==> LastHasLogits(ctx.outputs)
      invariant ctx.evaluated == old(ctx.evaluated) + log
      invariant LogCovers(log, chunks, start, index, from, nPast)
    {
      LogCoversNext(log, chunks, start, index, from, nPast);
      var status := h.evals(index);
      var ok, newPast := EvalOne(ctx, chunks, index, nPast, index + 1 == |chunks|, status);
      log := log + [ChunkEval(index, nPast, index + 1 == |chunks|)];
      if !ok {
        return Failure(ctx.kv, status.cancelSeen), nPast;
      }
      nPast := newPast;
      index := index + 1;
    }
    return Evaluated(ctx.kv), nPast;
  }

  /** Where the next sample reads its logits: the last output of the chunk
      evaluation first, the single entry of the batch afterwards. */
  predicate MediaLogitsReady(first: bool, batch: seq<BatchEntry>, outputs: seq<bool>) {
    if first then LastHasLogits(outputs) else LogitsReady(batch, outputs)
  }

  method MediaRound(ctx: SyncContext, batch: LlamaBatch, first: bool, pos: nat, g: Progress, m: Model, h: Host)
    returns (r: Round)
    requires ctx.nBatch > 0 && batch.capacity > 0
    requires |ctx.kv| == pos && MediaLogitsReady(first, batch.entries, ctx.outputs)
    modifies ctx`kv, ctx`outputs, ctx`submitted, batch
    ensures r == GenerateRound(old(ctx.kv), g, [], m, Unpolled(h))
    ensures ctx.kv == if r.Next? then r.kv else r.outcome.kv
    ensures r.Next? ==> |ctx.kv| == pos + 1 && LogitsReady(batch.entries, ctx.outputs)
  {
    var token := ctx.Sample(m, if first then -1 else |batch.entries| - 1, g.tokens);
    if m.endOfGeneration(token) {
      return Last(Outcome(ctx.kv, g, Finished));
    }
    var tokens := g.tokens + [token];
    var rendered := m.piece(tokens);
    if rendered.None? {
      return Last(Outcome(ctx.kv, g, Errored));
    }
    var sent := Progress(g.n, g.text + rendered.value, tokens, g.pieces + [rendered.value]);
    if h.sinkBreaks(sent.pieces) {
      return Last(Outcome(ctx.kv, sent, Interrupted));
    }
    var status := h.decodes(g.n);
    var ok := DecodeOne(ctx, batch, token, pos, status);
    if !ok {
      return Last(Outcome(ctx.kv, sent, if status.cancelSeen then Interrupted else Errored));
    }
    return Next(ctx.kv, sent.(n := g.n + 1));
  }

  method GenerateMedia(ctx: SyncContext, nPast: nat, cap: nat, m: Model, h: Host) returns (o: Outcome)
    requires ctx.nBatch > 0 && |ctx.kv| == nPast <= cap
    requires LastHasLogits(ctx.outputs)
    modifies ctx`kv, ctx`outputs, ctx`submitted
    ensures o == Generate(old(ctx.kv), cap - nPast, START, [], m, Unpolled(h))
    ensures o.kv == ctx.kv
  {
    hide GenerateRound;
    var batch := new LlamaBatch(1);
    var nCur := nPast;
    var g := START;
    var first := true;
    while nCur < cap
      invariant fresh(batch)
      invariant nCur == nPast + g.n == |ctx.kv| && nCur <= cap
      invariant MediaLogitsReady(first, batch.entries, ctx.outputs)
      invariant Generate(old(ctx.kv), cap - nPast, START, [], m, Unpolled(h))
             == Generate(ctx.kv, cap - nCur, g, [], m, Unpolled(h))
    {
      var r := MediaRound(ctx, batch, first, nCur, g, m, h);
      match r {
        case Last(outcome) => return outcome;
        case Next(_, progress) =>
          g := progress;
          nCur := nCur + 1;
          first := false;
      }
    }
    return Outcome(ctx.kv, g, Finished);
  }

  /** Everything before generation: describe, plan, trim, evaluate. */
  method PrefillMedia(ctx: SyncContext, cached: seq<CachedChunk>, r: MediaRequest, c: Settings)
    returns (exit: ChunkExit, nPast: nat, described: seq<CachedChunk>)
    requires ValidMedia(r, c) && ChunkRecordFits(KvState(ctx.kv, [], cached))
    modifies ctx`kv, ctx`outputs, ctx`evaluated
    ensures exit == MediaPrefill(KvState(old(ctx.kv), [], cached), r, c) && exit.kv == ctx.kv
    ensures exit.Evaluated? ==>
      var start := MediaStart(KvState(old(ctx.kv), [], cached), r, c);
      && old(ctx.evaluated) <= ctx.evaluated
      && LogCovers(ctx.evaluated[|old(ctx.evaluated)|..], r.prompt.chunks, start.1, |r.prompt.chunks|, start.2, nPast)
    ensures described == Describe(r.prompt, c.key)
    ensures exit.Evaluated? ==> nPast == |ctx.kv| && LastHasLogits(ctx.outputs)
  {
    MediaStartAligned(KvState(ctx.kv, [], cached), r, c);
    var nPos;
    described, nPos := DescribeChunks(r.prompt, c.key);
    var plan := PlanChunkKeep(cached, described, nPos, c.reuse);
    var keep := ctx.KeepPrefix(plan.1, r.prefill.removable);
    var start := if plan.1 > 0 && r.prefill.removable then plan.0 else 0;
    exit, nPast := EvalChunksFrom(ctx, r.prompt.chunks, start, keep, r.prefill);
  }

  /** Generation and the write-back of the record. */
  method RespondMedia(ctx: SyncContext, r: MediaRequest, described: seq<CachedChunk>, nPast: nat, cap: nat, reuse: bool)
    returns (reply: Reply)
    requires ctx.nBatch > 0 && |ctx.kv| == nPast <= cap && LastHasLogits(ctx.outputs)
    requires ctx.cachedTokens == [] && ctx.cachedChunks == []
    modifies ctx
    ensures (ctx.State(), reply) ==
      AfterGeneration(Generate(old(ctx.kv), cap - nPast, START, [], r.model, Unpolled(r.host)),
                      [], described, nPast, reuse)
  {
    hide Generate;
    var o := GenerateMedia(ctx, nPast, cap, r.model, r.host);
    if reuse && (o.ending.Finished? || o.ending.StopMatched?) {
      ctx.cachedChunks := described;
    }
    return if o.ending.Errored? then Err else Ok(o.progress.text, nPast, o.progress.n);
  }

  method DecodeMultimodal(ctx: SyncContext, r: MediaRequest, c: Settings) returns (reply: Reply)
    requires ValidMedia(r, c) && c.nCtx == ctx.nCtx && c.nBatch == ctx.nBatch
    requires ChunkRecordFits(ctx.State())
    modifies ctx
    ensures (ctx.State(), reply) == MediaStep(old(ctx.State()), r, c)
  {
    hide Generate, AfterGeneration, PositionCap, Describe, Tokenized;
    hide MediaStart, EvalFrom, LogCovers, MediaPrefill;
    ForgetTokens(ctx.State(), r, c);
    var cached := ctx.TakeChunkCache();
    if !r.prefill.tokenizes {
      return Err;
    }
    var exit, nPast, described := PrefillMedia(ctx, cached, r, c);
    if exit.Failure? {
      return if exit.cancelSeen then Ok("", 0, 0) else Err;
    }
    var cap := PositionCap(nPast, r.maxNew, r.sampleLen, ctx.nCtx);
    if nPast >= cap {
      return Err;
    }
    reply := RespondMedia(ctx, r, described, nPast, cap, c.reuse);
  }

  /** The text record plays no part in the multimodal path. */
  lemma ForgetTokens(s: KvState, r: MediaRequest, c: Settings)
    requires ValidMedia(r, c)
    ensures MediaPrefill(s.(tokens := []), r, c) == MediaPrefill(s, r, c)
  {
  }
}
