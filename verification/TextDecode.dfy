/** The text-only engine: trim, chunked prefill, generation, write-back. */
module TextDecode {
  import opened Options
  import opened Kv
  import opened PrefixPlan
  import opened Generation
  import opened Context

  const I32_MAX: int := 0x7fff_ffff

  /** Two's-complement wrap of a 32-bit addition, as a release build computes it. */
  function Wrap32(x: int): int {
    (x + 0x8000_0000) % 0x1_0000_0000 - 0x8000_0000
  }

  predicate IsI32(x: int) {
    -0x8000_0000 <= x <= I32_MAX
  }

  /** What the host and the backend do before generation: the cancel flag on
      entry, whether partial removal works, the sink's answer before prefill batch
      `i` and the fate of that batch. */
  datatype PrefillHost = PrefillHost(
    cancelledOnEntry: bool,
    removable: bool,
    sinkBreaks: nat -> bool,
    decodes: nat -> DecodeStatus)

  datatype TextRequest = TextRequest(
    tokens: seq<Token>,
    maxNew: Option<int>,
    sampleLen: Option<int>,
    stops: seq<string>,
    model: Model,
    prefill: PrefillHost,
    host: Host)

  datatype Settings = Settings(nCtx: nat, nBatch: nat, reuse: bool, key: Bitmap -> nat)

  /** Ranges the types of the source fix: 32-bit lengths and budgets, a context
      with a positive batch size, a prompt with at least the BOS token. */
  predicate ValidText(r: TextRequest, c: Settings) {
    && r.tokens != [] && |r.tokens| <= I32_MAX
    && (r.maxNew.Some? ==> IsI32(r.maxNew.value))
    && (r.sampleLen.Some? ==> IsI32(r.sampleLen.value))
    && ValidSettings(c)
  }

  predicate ValidSettings(c: Settings) {
    0 < c.nBatch && c.nCtx <= I32_MAX
  }

  datatype Reply =
    | Ok(text: string, promptTokens: nat, completionTokens: nat)
    | Err

  function Min(a: int, b: int): (r: int)
    ensures r <= a && r <= b && (r == a || r == b)
  {
    if a < b then a else b
  }

  /** The absolute position cap. */
  function PositionCap(promptTokens: nat, maxNew: Option<int>, sampleLen: Option<int>, nCtx: nat): int {
    if maxNew.Some? then Min(Wrap32(promptTokens + maxNew.value), nCtx)
    else Min(if sampleLen.Some? then sampleLen.value else 4096, nCtx)
  }

  /** The documented cap `min(prompt + max, n_ctx)` is what a request gets exactly
      when the 32-bit sum does not overflow; when it does overflow (a caller asking
      for "as many as possible") the request is refused instead of capped. */
  lemma PositionCapExact(promptTokens: nat, maxNew: int, nCtx: nat)
    requires promptTokens <= I32_MAX && IsI32(maxNew) && nCtx <= I32_MAX
    ensures PositionCap(promptTokens, Some(maxNew), None, nCtx) == Min(promptTokens + maxNew, nCtx)
       <==> promptTokens + maxNew <= I32_MAX
    ensures promptTokens + maxNew > I32_MAX ==>
      PositionCap(promptTokens, Some(maxNew), None, nCtx) <= promptTokens
  {
  }

  // ---- Prefill ----

  datatype PrefillExit =
    | Ready(kv: Cache)
    | Halted(kv: Cache)
    | Broken(kv: Cache)

  /** Prefill of positions `pos ..` in batches of at most `nBatch`, starting with
      batch number `i`. */
  function Prefill(kv: Cache, tokens: seq<Token>, pos: nat, nBatch: nat, h: PrefillHost, i: nat): PrefillExit
    requires pos <= |tokens| && nBatch > 0
    decreases |tokens| - pos
  {
    if pos == |tokens| then Ready(kv)
    else if h.sinkBreaks(i) then Halted(kv)
    else
      var next := Min(pos + nBatch, |tokens|);
      match h.decodes(i)
      case Failed(left, seen) => if seen then Halted(left) else Broken(left)
      case Completed => Prefill(DecodeTokens(kv, tokens[pos..next]), tokens, next, nBatch, h, i + 1)
  }

  lemma FreshSlice(tokens: seq<Token>, pos: nat, next: nat)
    requires pos <= next <= |tokens|
    ensures DecodeTokens(Fresh(tokens[..pos]), tokens[pos..next]) == Fresh(tokens[..next])
  {
    DecodeAppend([], tokens[..pos], tokens[pos..next]);
    assert tokens[..pos] + tokens[pos..next] == tokens[..next];
  }

  /** However it is cut into batches, a prefill that completes on top of the right
      prefix gives the cache of a fresh context. */
  lemma {:induction false} PrefillIsFresh(tokens: seq<Token>, pos: nat, nBatch: nat, h: PrefillHost, i: nat)
    requires pos <= |tokens| && nBatch > 0
    ensures var e := Prefill(Fresh(tokens[..pos]), tokens, pos, nBatch, h, i);
      e.Ready? ==> e.kv == Fresh(tokens)
    decreases |tokens| - pos
  {
    hide DecodeTokens;
    if pos == |tokens| {
      assert tokens[..pos] == tokens;
    } else if !h.sinkBreaks(i) && h.decodes(i).Completed? {
      var next := Min(pos + nBatch, |tokens|);
      FreshSlice(tokens, pos, next);
      PrefillIsFresh(tokens, next, nBatch, h, i + 1);
    }
  }

  /** The batches a complete prefill submits. */
  function BatchPlan(tokens: seq<Token>, pos: nat, nBatch: nat): seq<seq<BatchEntry>>
    requires pos <= |tokens| && nBatch > 0
    decreases |tokens| - pos
  {
    if pos == |tokens| then []
    else
      var next := Min(pos + nBatch, |tokens|);
      [Entries(tokens, pos, next)] + BatchPlan(tokens, next, nBatch)
  }

  /** Batches `i` up to `k` went through. */
  predicate Clean(h: PrefillHost, i: nat, k: nat) {
    forall b :: i <= b < k ==> !h.sinkBreaks(b) && h.decodes(b).Completed?
  }

  /** Batch `k` is cut off: the sink breaks before it, or its decode fails on a cancel. */
  predicate CutOffAt(h: PrefillHost, k: nat) {
    h.sinkBreaks(k) || (h.decodes(k).Failed? && h.decodes(k).cancelSeen)
  }

  /** Batch `k` fails by itself. */
  predicate FailsAt(h: PrefillHost, k: nat) {
    !h.sinkBreaks(k) && h.decodes(k).Failed? && !h.decodes(k).cancelSeen
  }

  ghost predicate SomeBatchCutOff(h: PrefillHost, i: nat, count: nat) {
    exists k :: i <= k < i + count && Clean(h, i, k) && CutOffAt(h, k)
  }

  ghost predicate SomeBatchFails(h: PrefillHost, i: nat, count: nat) {
    exists k :: i <= k < i + count && Clean(h, i, k) && FailsAt(h, k)
  }

  /** How a prefill ends, from outside: it is ready exactly when all its batches go
      through, halted exactly when the first one that does not is cut off, and broken
      exactly when that one fails by itself. */
  lemma {:induction false} PrefillExitExactly(kv: Cache, tokens: seq<Token>, pos: nat, nBatch: nat, h: PrefillHost,
                                              i: nat)
    requires pos <= |tokens| && nBatch > 0
    ensures var e, count := Prefill(kv, tokens, pos, nBatch, h, i), |BatchPlan(tokens, pos, nBatch)|;
      && (e.Ready? <==> Clean(h, i, i + count))
      && (e.Halted? <==> SomeBatchCutOff(h, i, count))
      && (e.Broken? <==> SomeBatchFails(h, i, count))
    decreases |tokens| - pos
  {
    hide DecodeTokens, Entries;
    if pos < |tokens| {
      var count := |BatchPlan(tokens, pos, nBatch)|;
      var next := Min(pos + nBatch, |tokens|);
      if !h.sinkBreaks(i) && h.decodes(i).Completed? {
        PrefillExitExactly(DecodeTokens(kv, tokens[pos..next]), tokens, next, nBatch, h, i + 1);
        FirstBatchClean(h, i, count - 1);
      } else {
        assert Clean(h, i, i);
        FirstBatchDecides(h, i, count);
      }
    }
  }

  lemma FirstBatchClean(h: PrefillHost, i: nat, count: nat)
    requires !h.sinkBreaks(i) && h.decodes(i).Completed?
    ensures forall k :: i < k ==> (Clean(h, i, k) <==> Clean(h, i + 1, k))
    ensures SomeBatchCutOff(h, i, count + 1) <==> SomeBatchCutOff(h, i + 1, count)
    ensures SomeBatchFails(h, i, count + 1) <==> SomeBatchFails(h, i + 1, count)
  {
    forall k | i < k ensures Clean(h, i, k) <==> Clean(h, i + 1, k) {
    }
  }

  lemma FirstBatchDecides(h: PrefillHost, i: nat, count: nat)
    requires count > 0 && (h.sinkBreaks(i) || h.decodes(i).Failed?)
    ensures !Clean(h, i, i + count)
    ensures SomeBatchCutOff(h, i, count) <==> CutOffAt(h, i)
    ensures SomeBatchFails(h, i, count) <==> FailsAt(h, i)
  {
    assert Clean(h, i, i);
    assert forall k :: i < k ==> !Clean(h, i, k);
  }

  function Flatten(batches: seq<seq<BatchEntry>>): seq<BatchEntry> {
    if batches == [] then [] else batches[0] + Flatten(batches[1..])
  }

  /** Every position from `pos` on is submitted once, in order; no batch is empty,
      longer than `n_batch` or longer than the allocation, and all but the last are
      full; only the final entry of the final batch asks for logits. */
  lemma {:induction false} BatchPlanCorrect(tokens: seq<Token>, pos: nat, nBatch: nat, capacity: nat)
    requires pos <= |tokens| && nBatch > 0
    requires capacity >= Min(nBatch, |tokens| - pos)
    ensures var plan := BatchPlan(tokens, pos, nBatch);
      && Flatten(plan) == Entries(tokens, pos, |tokens|)
      && (forall k :: 0 <= k < |plan| ==> 0 < |plan[k]| <= Min(nBatch, capacity))
      && (forall k :: 0 <= k < |plan| - 1 ==> |plan[k]| == nBatch)
      && (forall k, j :: 0 <= k < |plan| && 0 <= j < |plan[k]| ==>
            (plan[k][j].logits <==> k == |plan| - 1 && j == |plan[k]| - 1))
    decreases |tokens| - pos
  {
    if pos < |tokens| {
      var next := Min(pos + nBatch, |tokens|);
      var plan := BatchPlan(tokens, pos, nBatch);
      var rest := BatchPlan(tokens, next, nBatch);
      BatchPlanCorrect(tokens, next, nBatch, capacity);
      assert plan[1..] == rest;
      assert Entries(tokens, pos, next) + Entries(tokens, next, |tokens|) == Entries(tokens, pos, |tokens|);
      forall k, j | 0 <= k < |plan| && 0 <= j < |plan[k]|
        ensures plan[k][j].logits <==> k == |plan| - 1 && j == |plan[k]| - 1
      {
        if k > 0 {
          assert plan[k] == rest[k - 1];
        }
      }
    }
  }

  // ---- One request ----

  /** What a request leaves behind once generation ended. */
  function AfterGeneration(o: Outcome, tokens: seq<Token>, chunks: seq<CachedChunk>,
                           promptTokens: nat, reuse: bool): (KvState, Reply) {
    var keep := reuse && (o.ending.Finished? || o.ending.StopMatched?);
    (KvState(o.kv, if keep then tokens else [], if keep then chunks else []),
     if o.ending.Errored? then Err else Ok(o.progress.text, promptTokens, o.progress.n))
  }

  /** Cache and position prefill starts from. */
  function TextStart(s: KvState, r: TextRequest, c: Settings): (Cache, nat)
    requires ValidText(r, c)
  {
    var want := PlanKvKeep(s.tokens, r.tokens, c.reuse);
    if want > 0 && r.prefill.removable then (Trim(s.kv, want), want) else ([], 0)
  }

  function TextPrefill(s: KvState, r: TextRequest, c: Settings): PrefillExit
    requires ValidText(r, c)
  {
    var start := TextStart(s, r, c);
    Prefill(start.0, r.tokens, start.1, c.nBatch, r.prefill, 0)
  }

  /** With reuse off, nothing recorded or partial removal refused, everything is
      cleared. */
  lemma TextFullClear(s: KvState, r: TextRequest, c: Settings)
    requires ValidText(r, c) && (!c.reuse || s.tokens == [] || !r.prefill.removable)
    ensures TextStart(s, r, c) == ([], 0)
  {
  }

  /** The cap fits the context and leaves room for a token. */
  predicate CapFits(promptTokens: nat, cap: int, nCtx: nat) {
    cap <= nCtx && promptTokens < cap
  }

  function TextStep(s: KvState, r: TextRequest, c: Settings): (KvState, Reply)
    requires ValidText(r, c)
  {
    var n := |r.tokens|;
    var cap := PositionCap(n, r.maxNew, r.sampleLen, c.nCtx);
    if r.prefill.cancelledOnEntry then (s, Ok("", n, 0))
    else if !CapFits(n, cap, c.nCtx) then (KvState(TextStart(s, r, c).0, [], []), Err)
    else
      match TextPrefill(s, r, c)
      case Halted(kv) => (KvState(kv, [], []), Ok("", n, 0))
      case Broken(kv) => (KvState(kv, [], []), Err)
      case Ready(kv) =>
        AfterGeneration(Generate(kv, cap - n, START, r.stops, r.model, r.host),
                        r.tokens, [], n, c.reuse)
  }

  /** The request got as far as sampling its first token. */
  predicate TextGenerates(s: KvState, r: TextRequest, c: Settings)
    requires ValidText(r, c)
  {
    && !r.prefill.cancelledOnEntry
    && CapFits(|r.tokens|, PositionCap(|r.tokens|, r.maxNew, r.sampleLen, c.nCtx), c.nCtx)
    && TextPrefill(s, r, c).Ready?
  }

  /** A budget is accepted exactly when it is positive, the prompt leaves room in the
      context, and prompt and budget add up to a 32-bit number. */
  lemma CapFitsExactly(promptTokens: nat, maxNew: int, sampleLen: Option<int>, nCtx: nat)
    requires promptTokens <= I32_MAX && IsI32(maxNew) && nCtx <= I32_MAX
    ensures CapFits(promptTokens, PositionCap(promptTokens, Some(maxNew), sampleLen, nCtx), nCtx)
       <==> 0 < maxNew && promptTokens + maxNew <= I32_MAX && promptTokens < nCtx
  {
  }

  /** Without a budget of its own a request may fill its sample length, 4096 positions
      if none is set, as far as the context has them. */
  lemma CapWithoutBudget(promptTokens: nat, sampleLen: Option<int>, nCtx: nat)
    ensures var cap := PositionCap(promptTokens, None, sampleLen, nCtx);
      var limit := if sampleLen.Some? then sampleLen.value else 4096;
      && cap <= nCtx && cap <= limit && (cap == nCtx || cap == limit)
      && (CapFits(promptTokens, cap, nCtx) <==> promptTokens < nCtx && promptTokens < limit)
  {
  }

  /** So a request whose budget overflows is refused, with its record forgotten. */
  lemma OverflowIsRefused(s: KvState, r: TextRequest, c: Settings)
    requires ValidText(r, c) && !r.prefill.cancelledOnEntry
    requires r.maxNew.Some? && |r.tokens| + r.maxNew.value > I32_MAX
    ensures TextStep(s, r, c).1 == Err
    ensures TextStep(s, r, c).0.tokens == [] && TextStep(s, r, c).0.chunks == []
  {
    CapFitsExactly(|r.tokens|, r.maxNew.value, r.sampleLen, c.nCtx);
  }

  // ---- The engine ----

  predicate TextRecordHolds(s: KvState) {
    s.tokens != [] ==> Fresh(s.tokens) <= s.kv
  }

  /** What the plan keeps is the start of the new prompt's own cache. */
  lemma TextStartIsFresh(s: KvState, r: TextRequest, c: Settings)
    requires ValidText(r, c) && TextRecordHolds(s)
    ensures var start := TextStart(s, r, c);
      start.1 < |r.tokens| && start.0 == Fresh(r.tokens[..start.1])
  {
    var want := PlanKvKeep(s.tokens, r.tokens, c.reuse);
    if want > 0 {
      PlanKvKeepExact(s.tokens, r.tokens, want);
      DecodeTrim([], r.tokens, want);
      assert s.kv[..want] == Fresh(s.tokens)[..want];
    } else {
      assert r.tokens[..0] == [];
    }
  }

  /** The entry the next sample reads, the last of the batch, has its logits. */
  predicate LogitsReady(batch: seq<BatchEntry>, outputs: seq<bool>) {
    |batch| == |outputs| > 0 && outputs[|batch| - 1]
  }

  lemma NoEntries(tokens: seq<Token>, from: nat)
    requires from <= |tokens|
    ensures Entries(tokens, from, from) == []
  {
  }

  lemma EntriesGrow(tokens: seq<Token>, from: nat, pos: nat)
    requires from <= pos < |tokens|
    ensures Entries(tokens, from, pos + 1)
         == Entries(tokens, from, pos) + [BatchEntry(tokens[pos], pos, pos == |tokens| - 1)]
  {
  }

  method FillBatch(tokens: seq<Token>, from: nat, to: nat, batch: LlamaBatch)
    requires from < to <= |tokens| && to - from <= batch.capacity
    modifies batch
    ensures batch.entries == Entries(tokens, from, to)
  {
    hide Entries;
    NoEntries(tokens, from);
    batch.Clear();
    var pos := from;
    while pos < to
      invariant from <= pos <= to
      invariant batch.entries == Entries(tokens, from, pos)
    {
      EntriesGrow(tokens, from, pos);
      var added := batch.Add(tokens[pos], pos, pos == |tokens| - 1);
      assert added;
      pos := pos + 1;
    }
  }

  /** Put positions `from .. to` of the prompt in the batch and decode it. */
  method DecodeSlice(ctx: SyncContext, tokens: seq<Token>, from: nat, to: nat, batch: LlamaBatch, status: DecodeStatus)
    returns (ok: bool)
    requires from < to <= |tokens| && to - from <= batch.capacity && to - from <= ctx.nBatch
    requires |ctx.kv| == from
    modifies ctx`kv, ctx`outputs, ctx`submitted, batch
    ensures ok == status.Completed?
    ensures ctx.kv == if ok then DecodeTokens(old(ctx.kv), tokens[from..to]) else status.left
    ensures ctx.submitted == old(ctx.submitted) + [Entries(tokens, from, to)]
    ensures ok && to == |tokens| ==> LogitsReady(batch.entries, ctx.outputs)
  {
    FillBatch(tokens, from, to, batch);
    assert TokensOf(batch.entries) == tokens[from..to];
    ok := ctx.Decode(batch, status);
  }

  /** `log` with the batches still to come is the whole log `goal`. */
  ghost predicate LogLeadsTo(log: seq<seq<BatchEntry>>, tokens: seq<Token>, pos: nat, nBatch: nat,
                             goal: seq<seq<BatchEntry>>)
    requires pos <= |tokens| && nBatch > 0
  {
    log + BatchPlan(tokens, pos, nBatch) == goal
  }

  lemma LogStep(log: seq<seq<BatchEntry>>, tokens: seq<Token>, pos: nat, nBatch: nat, goal: seq<seq<BatchEntry>>)
    requires pos < |tokens| && nBatch > 0
    requires LogLeadsTo(log, tokens, pos, nBatch, goal)
    ensures var next := Min(pos + nBatch, |tokens|);
      LogLeadsTo(log + [Entries(tokens, pos, next)], tokens, next, nBatch, goal)
  {
  }

  lemma LogStart(log: seq<seq<BatchEntry>>, tokens: seq<Token>, pos: nat, nBatch: nat)
    requires pos <= |tokens| && nBatch > 0
    ensures LogLeadsTo(log, tokens, pos, nBatch, log + BatchPlan(tokens, pos, nBatch))
  {
  }

  lemma LogEnd(log: seq<seq<BatchEntry>>, tokens: seq<Token>, nBatch: nat, goal: seq<seq<BatchEntry>>)
    requires nBatch > 0 && LogLeadsTo(log, tokens, |tokens|, nBatch, goal)
    ensures log == goal
  {
  }

  method PrefillText(ctx: SyncContext, tokens: seq<Token>, from: nat, batch: LlamaBatch, h: PrefillHost)
    returns (exit: PrefillExit)
    requires ctx.nBatch > 0 && from < |tokens| && |ctx.kv| == from
    requires batch.capacity == Min(ctx.nBatch, |tokens| - from)
    modifies ctx`kv, ctx`outputs, ctx`submitted, batch
    ensures exit == Prefill(old(ctx.kv), tokens, from, ctx.nBatch, h, 0)
    ensures exit.kv == ctx.kv
    ensures exit.Ready? ==> |ctx.kv| == |tokens|
    ensures exit.Ready? ==> ctx.submitted == old(ctx.submitted) + BatchPlan(tokens, from, ctx.nBatch)
    ensures exit.Ready? ==> LogitsReady(batch.entries, ctx.outputs)
  {
    hide DecodeTokens, Entries, BatchPlan, LogLeadsTo;
    LogStart(ctx.submitted, tokens, from, ctx.nBatch);
    var pos := from;
    var i := 0;
    ghost var whole := Prefill(ctx.kv, tokens, from, ctx.nBatch, h, 0);
    ghost var goal := ctx.submitted + BatchPlan(tokens, from, ctx.nBatch);
    while pos < |tokens|
      invariant from <= pos <= |tokens| && |ctx.kv| == pos
      invariant whole == Prefill(ctx.kv, tokens, pos, ctx.nBatch, h, i)
      invariant LogLeadsTo(ctx.submitted, tokens, pos, ctx.nBatch, goal)
      invariant from < pos == |tokens| ==> LogitsReady(batch.entries, ctx.outputs)
    {
      if h.sinkBreaks(i) {
        return Halted(ctx.kv);
      }
      var next := Min(pos + ctx.nBatch, |tokens|);
      LogStep(ctx.submitted, tokens, pos, ctx.nBatch, goal);
      var status := h.decodes(i);
      var ok := DecodeSlice(ctx, tokens, pos, next, batch, status);
      if !ok {
        return if status.cancelSeen then Halted(ctx.kv) else Broken(ctx.kv);
      }
      pos := next;
      i := i + 1;
    }
    LogEnd(ctx.submitted, tokens, ctx.nBatch, goal);
    return Ready(ctx.kv);
  }

  /** Decode one generated token at position `pos`. */
  method DecodeOne(ctx: SyncContext, batch: LlamaBatch, token: Token, pos: nat, status: DecodeStatus) returns (ok: bool)
    requires ctx.nBatch > 0 && batch.capacity > 0 && |ctx.kv| == pos
    modifies ctx`kv, ctx`outputs, ctx`submitted, batch
    ensures ok == status.Completed?
    ensures ctx.kv == if ok then old(ctx.kv) + [Cell(old(ctx.kv), Tok(token))] else status.left
    ensures ok ==> LogitsReady(batch.entries, ctx.outputs)
  {
    batch.Clear();
    var added := batch.Add(token, pos, true);
    assert added;
    assert TokensOf(batch.entries) == [token];
    assert [token][..0] == [];
    ok := ctx.Decode(batch, status);
  }

  /** One round of the loop, at position `pos`. */
  method TextRound(ctx: SyncContext, batch: LlamaBatch, pos: nat, g: Progress,
                   stops: seq<string>, m: Model, h: Host) returns (r: Round)
    requires ctx.nBatch > 0 && batch.capacity > 0
    requires |ctx.kv| == pos && LogitsReady(batch.entries, ctx.outputs)
    modifies ctx`kv, ctx`outputs, ctx`submitted, batch
    ensures r == GenerateRound(old(ctx.kv), g, stops, m, h)
    ensures ctx.kv == if r.Next? then r.kv else r.outcome.kv
    ensures r.Next? ==> |ctx.kv| == pos + 1 && LogitsReady(batch.entries, ctx.outputs)
  {
    if h.cancelled(g.n) {
      return Last(Outcome(ctx.kv, g, Interrupted));
    }
    var token := ctx.Sample(m, |batch.entries| - 1, g.tokens);
    if m.endOfGeneration(token) {
      return Last(Outcome(ctx.kv, g, Finished));
    }
    var tokens := g.tokens + [token];
    var rendered := m.piece(tokens);
    if rendered.None? {
      return Last(Outcome(ctx.kv, g, Errored));
    }
    var sent := Progress(g.n, g.text + rendered.value, tokens, g.pieces + [rendered.value]);
    var broke := h.sinkBreaks(sent.pieces);
    var stop := MatchedStop(sent.text, stops);
    if stop.Some? {
      return Last(Outcome(ctx.kv, sent.(n := g.n + 1, text := sent.text[..|sent.text| - stop.value]), StopMatched));
    }
    if broke {
      return Last(Outcome(ctx.kv, sent, Interrupted));
    }
    var status := h.decodes(g.n);
    var ok := DecodeOne(ctx, batch, token, pos, status);
    if !ok {
      return Last(Outcome(ctx.kv, sent, if status.cancelSeen then Interrupted else Errored));
    }
    return Next(ctx.kv, sent.(n := g.n + 1));
  }

  method GenerateText(ctx: SyncContext, batch: LlamaBatch, promptTokens: nat, cap: nat,
                      stops: seq<string>, m: Model, h: Host) returns (o: Outcome)
    requires ctx.nBatch > 0 && batch.capacity > 0
    requires |ctx.kv| == promptTokens <= cap
    requires LogitsReady(batch.entries, ctx.outputs)
    modifies ctx`kv, ctx`outputs, ctx`submitted, batch
    ensures o == Generate(old(ctx.kv), cap - promptTokens, START, stops, m, h)
    ensures o.kv == ctx.kv
  {
    hide GenerateRound;
    var nCur := promptTokens;
    var g := START;
    while nCur < cap
      invariant nCur == promptTokens + g.n == |ctx.kv| && nCur <= cap
      invariant LogitsReady(batch.entries, ctx.outputs)
      invariant Generate(old(ctx.kv), cap - promptTokens, START, stops, m, h)
             == Generate(ctx.kv, cap - nCur, g, stops, m, h)
    {
      var r := TextRound(ctx, batch, nCur, g, stops, m, h);
      match r {
        case Last(outcome) => return outcome;
        case Next(_, progress) =>
          g := progress;
          nCur := nCur + 1;
      }
    }
    return Outcome(ctx.kv, g, Finished);
  }

  /** Everything before prefill: take the record, plan, trim. */
  method TrimForText(ctx: SyncContext, r: TextRequest, c: Settings) returns (keep: nat)
    requires ValidText(r, c) && TextRecordHolds(ctx.State())
    modifies ctx`kv, ctx`cachedTokens, ctx`cachedChunks
    ensures (ctx.kv, keep) == TextStart(old(ctx.State()), r, c)
    ensures ctx.cachedTokens == [] && ctx.cachedChunks == []
    ensures keep == |ctx.kv| < |r.tokens|
  {
    TextStartIsFresh(ctx.State(), r, c);
    var cached := ctx.TakeTextCache();
    var want := PlanKvKeep(cached, r.tokens, c.reuse);
    keep := ctx.KeepPrefix(want, r.prefill.removable);
  }

  /** Generation and the write-back of the record. */
  method Respond(ctx: SyncContext, batch: LlamaBatch, r: TextRequest, cap: nat, reuse: bool) returns (reply: Reply)
    requires ctx.nBatch > 0 && batch.capacity > 0
    requires |ctx.kv| == |r.tokens| <= cap
    requires LogitsReady(batch.entries, ctx.outputs)
    requires ctx.cachedTokens == [] && ctx.cachedChunks == []
    modifies ctx, batch
    ensures (ctx.State(), reply) ==
      AfterGeneration(Generate(old(ctx.kv), cap - |r.tokens|, START, r.stops, r.model, r.host),
                      r.tokens, [], |r.tokens|, reuse)
  {
    var o := GenerateText(ctx, batch, |r.tokens|, cap, r.stops, r.model, r.host);
    if reuse && (o.ending.Finished? || o.ending.StopMatched?) {
      ctx.cachedTokens := r.tokens;
    }
    return if o.ending.Errored? then Err else Ok(o.progress.text, |r.tokens|, o.progress.n);
  }

  method DecodeTextOnly(ctx: SyncContext, r: TextRequest, c: Settings) returns (reply: Reply)
    requires ValidText(r, c) && c.nCtx == ctx.nCtx && c.nBatch == ctx.nBatch
    requires TextRecordHolds(ctx.State())
    modifies ctx
    ensures (ctx.State(), reply) == TextStep(old(ctx.State()), r, c)
  {
    var promptTokens := |r.tokens|;
    if r.prefill.cancelledOnEntry {
      return Ok("", promptTokens, 0);
    }
    var keep := TrimForText(ctx, r, c);
    var cap := PositionCap(promptTokens, r.maxNew, r.sampleLen, ctx.nCtx);
    if cap > ctx.nCtx || promptTokens >= cap {
      return Err;
    }
    var batch := new LlamaBatch(Min(ctx.nBatch, |r.tokens| - keep));
    var exit := PrefillText(ctx, r.tokens, keep, batch, r.prefill);
    match exit {
      case Halted(_) => return Ok("", promptTokens, 0);
      case Broken(_) => return Err;
      case Ready(_) => reply := Respond(ctx, batch, r, cap, c.reuse);
    }
  }
}
