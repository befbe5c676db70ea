# A verified model of the llama.cpp plugin

This Dafny project models the stateful core of the llama.cpp plugin and of the
crates around it, and proves what that core promises its callers. Nothing here
executes the Rust code; the claims are about the model, which follows the code
branch by branch.

## What is modelled

**KV prefix reuse** (`Kv`, `PrefixPlan`, `Context`, `Generation`, `TextDecode`,
`MediaDecode`, `Sessions`). The wrapper keeps one context alive. Every request
takes the reuse record, trims the KV cache to what it shares with its own prompt,
prefills the rest in batches, generates, and may write a new record. `Context`,
`TextDecode`, `MediaDecode` and `LlamaModelWrapper` are imperative like the source:
a context object with its cache and records, a batch with a capacity, the prefill
and token loops. Each method is proved equal to a step function, and the theorems
in `Sessions` are about all runs of these steps. The language model is a free term:
a cell holds the whole cache it attended to and its input, so equal caches stand for
equal keys, values and logits in any deterministic causal model; that trimming is
harmless is then a lemma, not an assumption. Sampler, end-of-generation test and
token rendering are arbitrary functions. Everything the outside decides - cancel
polls, the sink's answers, decode failures and what they leave in the cache, refused
partial removal, failing tokenization - is an arbitrary function or flag in the
request, so each theorem holds for every behaviour of the outside.

**Streaming text** (`ReasoningSplitter`, `ExtractReasoning`, `StreamDeltas`,
`GenerationPrompt`). The `<think>` splitter as a class against a
character-by-character split of the whole text; the delta emitter and its
accumulator against each other.

**The streaming pipeline** (`Wire`, `Pipeline`, `EndToEnd`, `Serving`). `run_stream` as a state
machine whose steps interleave freely: the generating worker, the channel of 32
items, the forwarder, the host and the cancel token. `EndToEnd` puts the two workers
into it and connects the generated text and the parsed messages to what the host
hears; `Serving` puts the engine behind the plain worker.

**Smaller cores** (`RerankerCache`, `Reranker`, `RuleNames`, `Decimal`, `Escaping`,
`Markers`). The reranker's LRU cache with expiry and its four-phase scoring, grammar
rule names, JSON and GBNF escaping, media markers.

## Where the code and its comments disagree

The model follows the code.

- The comments in `decode.rs` (330-331 and 403-409) say that a sink-driven cancel
  never writes the record back. If the same piece completes a stop string the code
  does write it back (345-369). `Sessions.BrokenSinkRecordsExactly` says when, for a
  sink that breaks in any round: exactly when the text sent ends with a stop string.
  `Sessions.StopBeatsCancel` is a witness. It is harmless, since the record only has
  to describe a prompt present in the cache.
- The comment at `decode.rs:160-162` promises a budget capped at `n_ctx`. The 32-bit
  sum of prompt and `max_new_tokens` can overflow; a release build wraps, and the
  request is refused instead of capped (a debug build panics). The exact condition is
  `TextDecode.PositionCapExact`; the refusal is `TextDecode.OverflowIsRefused`.
- `reasoning_splitter.rs:3` says the splitter mirrors `extract_reasoning`. It does
  exactly for texts with a single block: `ExtractReasoning.StreamingAgreesExactly`, with
  the disagreement spelled out in `ExtractReasoning.TwoBlocksExample`.
- `common.rs:219-222` calls the minted rule names collision-free. They are exactly
  when no base is another base with a number it is given:
  `RuleNames.MintedDistinctExactly`, with a collision in `RuleNames.ToolRulesCanCollide`.
- The comment at `helpers.rs:220-225` describes a fallback to the role header; the
  code removes the longest echoed prefix that ends a line, and the header fallback is
  never reached with success.

## Where a property holds only under a condition

- Marker injection is there to give every medium one marker. A marker that ends in a
  newline, which the settings allow, can get one too many:
  `Markers.InjectionCountsExactly`.
- The streamed id of a tool call and the id announced with it as pending are stamped
  separately (`common.rs:584-585`, `common.rs:356-359`), so the host sees one call under
  two ids unless the stamps agree: `EndToEnd.ToolStreamAnnouncesStreamed`.
- A failed inference is cached as score 0 (`reranker.rs:256-262`, `365-371`) and served
  until it expires: `Reranker.FailureIsServedExactly`.

## Model

| member | source | states |
|---|---|---|
| Sessions.RunKeepsRecords | llama-cpp-plugin/src/model/config.rs:516-586 | after every sequence of text, multimodal and refused requests, with any images and however each ended (success, error, cancel, refused partial removal, stop string), at most one of the two reuse records is non-empty, both are empty when reuse is off, a text record is a prompt wholly present at the start of the KV cache, and a multimodal record accounts for no more positions than the cache has |
| Sessions.RunKeepsChunkRecord | llama-cpp-plugin/src/model/config.rs:516-586 | when no two different images of the run share both the hash and the positions of their first tile, a multimodal record, too, describes a prompt wholly present at the start of the cache |
| Sessions.TextReuseRefinesFullClear | llama-cpp-plugin/src/model/decode.rs:130-221 | after any run, a text request that reaches sampling starts on exactly the KV cache of a fresh context, and its reply (with the same reuse setting also everything it leaves behind) is that of a fresh context, whatever the batches, refusals and prefill timing on either side |
| Sessions.MediaReuseRefinesFullClear | llama-cpp-plugin/src/model/decode.rs:498-556 | the same for multimodal requests, when no two different bitmaps of the run share both the hash and the positions of their first tile |
| Sessions.MediaReuseSoundExactly | llama-cpp-plugin/src/model/decode.rs:498-556 | with reuse on and room for the images, every multimodal request after every run over a set of images is evaluated to the cache of a fresh context if and only if no two different usable images in the set share the hash and the positions of the first tile; two that do are confused by a run of one request |
| Sessions.QuietTextReplyIgnoresHistory | llama-cpp-plugin/src/model/decode.rs:91-419 | if nothing cancels or fails before generation, the reply to a text request - length refusals included - does not depend on the history or on whether reuse is on |
| Sessions.QuietMediaReplyIgnoresHistory | llama-cpp-plugin/src/model/decode.rs:476-641 | the multimodal counterpart |
| Sessions.TextReplyIsModels | llama-cpp-plugin/src/model/decode.rs:237-388 | after any run every token of a text reply is the sampler's choice on the cache of this prompt and the tokens before it, and each piece renders its token |
| Sessions.MediaReplyIsModels | llama-cpp-plugin/src/model/decode.rs:570-616 | the multimodal counterpart |
| Sessions.TextReplyExactly | llama-cpp-plugin/src/model/decode.rs:91-419 | the reply to every text request: empty and no error when cancelled on entry or during prefill, an error when refused for its length or when a batch fails by itself, an error when a token cannot be rendered or a decode fails by itself, and otherwise the text, the prompt tokens and the tokens counted |
| Sessions.MediaReplyExactly | llama-cpp-plugin/src/model/decode.rs:506-641 | the same for every multimodal request; tokenization failure is an error, and a cancel while chunks are evaluated reports no positions |
| Sessions.TextReplyCorrect | llama-cpp-plugin/src/model/decode.rs:253-418 | a successful reply reports the pieces sent to the sink minus the matched stop; prompt plus completion tokens fit n_ctx and completion tokens fit max_new_tokens |
| Sessions.MediaReplyCorrect | llama-cpp-plugin/src/model/decode.rs:558-641 | the reported text is all pieces sent; prompt positions plus completion tokens fit n_ctx and the request's budget |
| Sessions.RecordWrittenExactly | llama-cpp-plugin/src/model/decode.rs:355-412 | past the first cancel check, the text record afterwards is the prompt exactly when reuse is on, the request got to sampling, and the text sent ends with a stop string or no cancel, broken sink or failed decode came before the cap or an end token; otherwise both records are empty |
| Sessions.BrokenSinkRecordsExactly | llama-cpp-plugin/src/model/decode.rs:330-369 | in whatever round the sink breaks, the record is written back if and only if the text sent ends with a non-empty stop string |
| Sessions.MediaRecordWrittenExactly | llama-cpp-plugin/src/model/decode.rs:628-634 | the multimodal record afterwards describes the prompt exactly when reuse is on, the request got to sampling, and no broken sink or failed decode came before the cap or an end token; otherwise both records are empty |
| Sessions.NextTextKeepsAllShared | llama-cpp-plugin/src/model/decode.rs:130-153 | after a completed text request the next one keeps exactly the longest prefix shared with it, short of its own last token |
| Sessions.NextMediaKeepsAllShared | llama-cpp-plugin/src/model/decode.rs:509-530 | after a completed multimodal request the next one keeps exactly the longest run of identical, keyed chunks, short of its own last chunk |
| Sessions.StopBeatsCancel | llama-cpp-plugin/src/model/decode.rs:330-369 | the witness that it happens: a stop string completed by the very first piece, at which the sink breaks, leaves a record and counts the token |
| Sessions.LlamaModelWrapper.EnsureContext | llama-cpp-plugin/src/model/wrapper.rs:284-319 | a context is built only when the slot is empty; an existing one and its state are untouched; failure leaves the slot empty |
| Sessions.LlamaModelWrapper.RunText | llama-cpp-plugin/src/model/decode.rs:110-153 | in-place request on the owned context, whatever images were served before: the invariant holds again; the context is back in its slot on every exit, one built during the call included; state and reply are those of the specified step, or an error when no context can be built |
| Sessions.LlamaModelWrapper.RunMedia | llama-cpp-plugin/src/model/config.rs:588-620 | the same for a multimodal request; the content of the chunk record is promised when the hash tells the images apart |
| TextDecode.DecodeTextOnly | llama-cpp-plugin/src/model/decode.rs:91-419 | the imperative engine leaves exactly the cache, records and reply of the step function the lemmas above are about, on every exit |
| TextDecode.TrimForText | llama-cpp-plugin/src/model/decode.rs:130-153 | takes the record, plans and trims or clears; both records are empty afterwards and the position prefill starts from is the length of the cache and short of the prompt |
| TextDecode.TextStartIsFresh | llama-cpp-plugin/src/model/decode.rs:130-153 | what is kept after the trim is the cache a fresh context would have for that prefix of the new prompt |
| TextDecode.TextFullClear | llama-cpp-plugin/src/model/decode.rs:137-153 | with reuse off, no record or partial removal refused, prefill starts from an empty cache at position 0 |
| TextDecode.PrefillText | llama-cpp-plugin/src/model/decode.rs:178-233 | the chunked loop: its exit, the batches it logged (exactly the plan) and the logits flag left for the first sample; every batch is accepted by the capacity and position checks of the decoder |
| TextDecode.PrefillExitExactly | llama-cpp-plugin/src/model/decode.rs:187-233 | a prefill is ready exactly when every batch goes through, halted exactly when the first that does not is cut off by the sink or a cancel, and broken exactly when that one fails by itself |
| TextDecode.PrefillIsFresh | llama-cpp-plugin/src/model/decode.rs:178-221 | however the suffix is cut into batches, a completed prefill gives the cache of a fresh context |
| TextDecode.BatchPlanCorrect | llama-cpp-plugin/src/model/decode.rs:178-211 | the batches submit every position from n_keep on once and in order, none is empty or longer than n_batch or the allocation, all but the last are full, and only the last entry of the last batch asks for logits |
| TextDecode.GenerateText | llama-cpp-plugin/src/model/decode.rs:253-388 | the token loop equals the specified loop; at its head n_cur is prompt plus decoded tokens, is the KV length, and is within the cap; each sample reads an entry whose logits were asked for |
| TextDecode.TextRound | llama-cpp-plugin/src/model/decode.rs:253-388 | one round: poll, sample, end test, render, sink, stop strings, decode, in that order |
| TextDecode.Respond | llama-cpp-plugin/src/model/decode.rs:355-418 | generation followed by the write-back of the record and the reply |
| TextDecode.PositionCapExact | llama-cpp-plugin/src/model/decode.rs:160-169 | with 32-bit wrap-around the cap is min(prompt + max, n_ctx) if and only if the sum does not overflow; when it does, the cap is at most the prompt length |
| TextDecode.CapFitsExactly | llama-cpp-plugin/src/model/helpers.rs:176-201 | the length check passes if and only if the budget is positive, the prompt is shorter than n_ctx and prompt plus budget is a 32-bit number |
| TextDecode.CapWithoutBudget | llama-cpp-plugin/src/model/decode.rs:163-169 | without max_new_tokens the cap is the smaller of n_ctx and the sample length, 4096 if none is set, and the length check passes exactly when the prompt is shorter than both |
| TextDecode.OverflowIsRefused | llama-cpp-plugin/src/model/decode.rs:160-169 | a text request whose budget overflows is answered with an error and leaves no record |
| MediaDecode.MediaOverflowIsRefused | llama-cpp-plugin/src/model/decode.rs:558-568 | an evaluated multimodal prompt whose budget overflows is answered with an error and leaves no record |
| Generation.MatchedStop | llama-cpp-plugin/src/model/decode.rs:345-348 | finds a non-empty stop string the text ends with, or none exists |
| Generation.MatchedStopIsFirst | llama-cpp-plugin/src/model/decode.rs:345-348 | when several stop strings match, the first one listed is the one cut off |
| Generation.GeneratedTextIsPieces | llama-cpp-plugin/src/model/decode.rs:253-388 | the text is the concatenation of the pieces given to the sink minus at most one matched stop string, the first one that matches, and no earlier piece boundary ended in a stop |
| Generation.GenerateBounds | llama-cpp-plugin/src/model/decode.rs:253-418 | the tokens counted stay within the budget; on normal ends they are all the sampled ones and the cache is the starting one with the decoded tokens on top |
| Generation.GenerationIsAutoregressive | llama-cpp-plugin/src/model/decode.rs:253-388 | every token is sampled on the prompt's cache extended by exactly the tokens before it, every piece renders its token, and the loop ends by itself only on an end token or the cap |
| Generation.GenerationHeedsHost | llama-cpp-plugin/src/model/decode.rs:253-388 | a cancel, a breaking sink or a failed decode ends the loop in the round it is met, nothing else counts as an interruption, and a stop string matched in that round comes first |
| Generation.GenerationEndsExactly | llama-cpp-plugin/src/model/decode.rs:253-412 | the loop ends normally if and only if the text sent ends with a stop string, or nothing disturbed the rounds up to the cap or an end token |
| Generation.GenerationErrsExactly | llama-cpp-plugin/src/model/decode.rs:289-385 | a generation is an error if and only if nothing sent ends in a stop string and a token other than an end token could not be rendered, or the decode after the last piece failed with no cancel seen |
| Generation.CountExactly | llama-cpp-plugin/src/model/decode.rs:253-418 | the tokens counted are the pieces sent, less the last one exactly when its round was cut off or failed and it completed no stop string |
| Kv.DecodeTrim | llama-cpp-plugin/src/model/decode.rs:142-153 | causality: trimming the cache to n positions leaves what the first n tokens alone would produce |
| Kv.FreshInjective | llama-cpp-plugin/src/model/decode.rs:130-153 | two prompts have equal fresh caches exactly when they are equal |
| Kv.EvalTrim | llama-cpp-plugin/src/model/decode.rs:519-530 | causality at chunk boundaries of a multimodal prompt |
| PrefixPlan.CommonPrefixLenExact | llama-cpp-plugin/src/model/helpers.rs:67-69 | n is within the common prefix length if and only if the first n tokens agree |
| PrefixPlan.PlanKvKeepExact | llama-cpp-plugin/src/model/helpers.rs:76-86 | n is within the plan if and only if it leaves a token to evaluate and n cells of the recorded prompt are exactly those of the new prompt: the plan is sound and maximal |
| PrefixPlan.DescribeChunks | llama-cpp-plugin/src/model/helpers.rs:148-171 | the loop pairs media chunks with bitmaps in order, with no key once the bitmaps run out, and lists the positions of each chunk |
| PrefixPlan.PlanChunkKeepExact | llama-cpp-plugin/src/model/helpers.rs:111-135 | n is within the plan if and only if it leaves a chunk to evaluate, the descriptions agree up to n and no media chunk before n lacks a key; the positions kept are those of the kept chunks |
| PrefixPlan.MatchingChunksAreEqual | llama-cpp-plugin/src/model/helpers.rs:111-171 | when no two different bitmaps share the hash and the positions of the first tile, chunks whose descriptions match and are keyed are the same chunks, tiling included |
| PrefixPlan.PlannedChunksAreFresh | llama-cpp-plugin/src/model/helpers.rs:111-135 | the kept cells are those a full evaluation of the new prompt makes for the kept chunks |
| PrefixPlan.PlanSoundExactly | llama-cpp-plugin/src/model/helpers.rs:88-171 | the plan is sound for every two tokenized prompts over a set of bitmaps if and only if no two different usable bitmaps in it share the hash and the positions of the first tile; other collisions do no harm |
| PrefixPlan.CollisionReusesWrongImage | llama-cpp-plugin/src/model/helpers.rs:88-100 | any two different bitmaps that share both make the plan keep cells of the wrong one |
| Context.SyncContext.TakeTextCache | llama-cpp-plugin/src/model/config.rs:576-579 | hands over the text record and empties both |
| Context.SyncContext.TakeChunkCache | llama-cpp-plugin/src/model/config.rs:582-585 | hands over the chunk record and empties both |
| Context.SyncContext.KeepPrefix | llama-cpp-plugin/src/model/decode.rs:142-153 | keeps the wanted prefix, or clears everything when nothing is wanted or partial removal is refused |
| Context.SyncContext.Decode | llama-cpp-plugin/src/model/decode.rs:212-220 | one batch extends the cache by its tokens and sets the logits flags, or leaves an arbitrary cache on failure; every batch handed over is logged |
| Context.SyncContext.Sample | llama-cpp-plugin/src/model/decode.rs:259-267 | requires that the entry read has its logits |
| MediaDecode.DecodeMultimodal | llama-cpp-plugin/src/model/decode.rs:476-641 | the imperative engine leaves exactly the cache, records and reply of the multimodal step, on every exit and for any images |
| MediaDecode.EvalChunksFrom | mtmd-support/src/runtime.rs:298-326 | the suffix loop: its result, n_past equal to the cache length, and a log of exactly one evaluation per chunk from the start index, in order and end to end, of which only the last chunk asked for logits |
| MediaDecode.EvalFromIsFresh | mtmd-support/src/runtime.rs:298-326 | evaluating chunks from any index on top of the right prefix gives the cache of evaluating all chunks from 0 |
| MediaDecode.EvalExitExactly | mtmd-support/src/runtime.rs:298-326 | evaluation succeeds exactly when every chunk does, and otherwise reports whether the first failure came with a cancel |
| MediaDecode.MediaStartIsFresh | llama-cpp-plugin/src/model/decode.rs:498-530 | what is kept after the trim is what evaluating the kept chunks afresh would give |
| MediaDecode.MediaStartAligned | llama-cpp-plugin/src/model/decode.rs:509-530 | even when images are confused, evaluation starts exactly where the kept cells end, at the position of the first chunk to evaluate, and leaves a chunk to evaluate |
| MediaDecode.MediaFullClear | llama-cpp-plugin/src/model/decode.rs:517-530 | with reuse off, no record or partial removal refused, evaluation starts from an empty cache at chunk 0 |
| MediaDecode.PrefillMedia | llama-cpp-plugin/src/model/decode.rs:506-556 | describe, plan, trim and evaluate together, with the same log from the planned start |
| MediaDecode.GenerateMedia | llama-cpp-plugin/src/model/decode.rs:571-616 | the multimodal token loop equals the text loop without head polling and stop strings; the first sample reads the last output, later ones the single batch entry |
| Search.FindIsFirst | llama-cpp-plugin/src/reasoning_splitter.rs:62-82 | the search yields the first occurrence of the tag, or there is none |
| ReasoningSplitter.ChunkingIndependence | llama-cpp-plugin/src/reasoning_splitter.rs:47-110 | for every list of chunks, everything released by feeding them and flushing is the one-shot split of their concatenation |
| ReasoningSplitter.DrainAppend | llama-cpp-plugin/src/reasoning_splitter.rs:47-94 | feeding more text on top of mode and held buffer is the same as feeding all of it at once |
| ReasoningSplitter.DrainThenFlushIsSplit | llama-cpp-plugin/src/reasoning_splitter.rs:96-110 | flushing after any text completes the character-by-character split of it |
| ReasoningSplitter.HoldBackExact | llama-cpp-plugin/src/reasoning_splitter.rs:62-93 | the text released so far is exactly the longest that every continuation of the stream agrees on, for content and for reasoning: nothing too early, nothing withheld |
| ReasoningSplitter.HeldIsTagPrefix | llama-cpp-plugin/src/reasoning_splitter.rs:27-31 | the held buffer is always a proper prefix of the awaited tag |
| ReasoningSplitter.SplitIsLossless | llama-cpp-plugin/src/reasoning_splitter.rs:47-110 | the segments between the tags, woven together with the tags, give back the text, and dealt out in turn give content and reasoning |
| ReasoningSplitter.LongestAmbiguousSuffix | llama-cpp-plugin/src/reasoning_splitter.rs:118-127 | returns the smallest index from which the text could still be the start of the tag |
| ReasoningSplitter.HoldFromIsLeast | llama-cpp-plugin/src/reasoning_splitter.rs:113-127 | no earlier index starts a proper prefix of the tag |
| ReasoningSplitter.Splitter.WorkThrough | llama-cpp-plugin/src/reasoning_splitter.rs:55-93 | the in-place loop over held text and new chunk |
| ReasoningSplitter.Splitter.Feed | llama-cpp-plugin/src/reasoning_splitter.rs:47-94 | adds the released parts; mode and buffer stay those of draining everything fed so far |
| ReasoningSplitter.Splitter.Flush | llama-cpp-plugin/src/reasoning_splitter.rs:101-110 | afterwards everything released is the one-shot split of everything fed |
| ExtractReasoning.StreamingAgreesExactly | llama-cpp-plugin/src/model/wrapper.rs:925-951 | the one-shot extraction and the streaming split agree up to trimming if and only if no second open tag follows the first closed block; unclosed blocks agree |
| ExtractReasoning.TwoBlocksDisagree | llama-cpp-plugin/src/model/wrapper.rs:925-937 | on every text with two blocks the streaming split takes both for reasoning while the one-shot extraction leaves the second in the answer |
| ExtractReasoning.TwoBlocksExample | llama-cpp-plugin/src/model/wrapper.rs:925-937 | one such text, spelled out with both results |
| ExtractReasoning.TrimIdempotent | llama-cpp-plugin/src/model/wrapper.rs:932-944 | trimming twice is trimming once |
| ExtractReasoning.TrimExact | llama-cpp-plugin/src/model/wrapper.rs:932-944 | trimming removes white space at the ends, all of it, and nothing else |
| ExtractReasoning.TrimUnique | llama-cpp-plugin/src/model/wrapper.rs:932-944 | that determines the trimmed text |
| ExtractReasoning.ExtractExact | llama-cpp-plugin/src/model/wrapper.rs:925-951 | a text without a tag comes back untouched; with a closed block the block is the reasoning and what surrounds it the answer, with an unclosed one the rest is the reasoning unless it is only white space - all trimmed |
| ExtractReasoning.EveryTagOpens | llama-cpp-plugin/src/model/wrapper.rs:926-930 | every text with a tag has the shape the previous row is about |
| StreamDeltas.StreamState.ParsedStreamDeltas | llama-cpp-plugin/src/oai_chat/common.rs:544-599 | state and emitted deltas are those of the specified update, refusals included |
| StreamDeltas.StreamState.EmitCalls | llama-cpp-plugin/src/oai_chat/common.rs:576-596 | gives up exactly when a known call's arguments do not extend, without having handed out ids; otherwise every new call gets an id |
| StreamDeltas.RefusedUpdateChangesNothing | llama-cpp-plugin/src/oai_chat/common.rs:548-581 | an update is refused exactly when the content gets shorter in bytes, calls disappear, or the arguments of a known call do not extend, and a refusal leaves the whole state as it was |
| StreamDeltas.AcceptedNeverShrinks | llama-cpp-plugin/src/oai_chat/common.rs:548-598 | over every stream the accepted content never gets shorter in bytes, no accepted call goes away, and its arguments only extend |
| StreamDeltas.UpdateShape | llama-cpp-plugin/src/oai_chat/common.rs:499-598 | no delta is empty; text comes before reasoning and reasoning before the calls, in ascending order; a call gives id and name with its first delta and never again |
| StreamDeltas.UpdateRebuildsExactly | llama-cpp-plugin/src/oai_chat/common.rs:544-599 | a growing message is always accepted, and an accepted message is rebuilt by an up-to-date receiver if and only if it grew out of the previous one |
| StreamDeltas.StreamRebuildsExactly | llama-cpp-plugin/src/oai_chat/common.rs:544-599 | for every sequence of messages the receiver is up to date throughout if and only if every message is refused or grows out of the last one accepted |
| StreamDeltas.DeltasRebuildMessage | llama-cpp-plugin/src/oai_chat/common.rs:544-599 | for every growing sequence of messages the receiver ends with generation-prompt body plus final content, final reasoning and the final calls under the ids handed out |
| StreamDeltas.IdsAreStable | llama-cpp-plugin/src/oai_chat/common.rs:582-585 | whatever messages come, an id once handed out never changes, and id i carries index i |
| StreamDeltas.IdsAreStamped | llama-cpp-plugin/src/oai_chat/common.rs:582-591 | the streamed id of a call carries the stamp of the message that first brought it and was not refused |
| StreamDeltas.DistinctIds | llama-cpp-plugin/src/oai_chat/common.rs:923-930 | no two calls share an id |
| Text.ByteLenAppend | llama-cpp-plugin/src/oai_chat/common.rs:548-555 | byte lengths add up |
| Text.ByteLenIsUtf8 | llama-cpp-plugin/src/oai_chat/common.rs:548-555 | the length of a character is that of its UTF-8 encoding, which can be read back |
| StreamDeltas.DecodeOaiDeltas | llama-cpp-plugin/src/oai_chat/common.rs:76-123 | the loop accumulates text, reasoning and call fragments in order, empty ids and names counting as absent |
| StreamDeltas.DecodeSnoc | llama-cpp-plugin/src/oai_chat/common.rs:97-121 | what one more delta adds, with exactly the empty id and name taken for none |
| StreamDeltas.ToolCallAccumulator.IngestDelta | llama-cpp-plugin/src/oai_chat/common.rs:165-178 | first id and name win, arguments are appended |
| StreamDeltas.IngestAllExact | llama-cpp-plugin/src/oai_chat/common.rs:165-178 | after any fragments, a call is known exactly when there was one for it; its id and name are the first ones given and its arguments all its fragments in order |
| StreamDeltas.ToolCallAccumulator.Finalize | llama-cpp-plugin/src/oai_chat/common.rs:194-204 | requests in ascending index order, missing ids synthesized from the position |
| StreamDeltas.RebuiltCallsFinalize | llama-cpp-plugin/src/oai_chat/common.rs:194-204 | the rebuilt calls come out in order with their ids, names and arguments |
| Wire.EncodingKeepsExactly | llama-cpp-plugin/src/lib.rs:521-593 | the chunks of an item carry all of its text, reasoning and calls if and only if the item has no text beside calls, no calls on a completion and nothing left to say beside pending tool calls |
| Wire.FinalEndsStream | llama-cpp-plugin/src/lib.rs:618-676 | any deltas followed by a final item encode to chunks of which exactly the last is marked done |
| Wire.FinalCarriesUsage | llama-cpp-plugin/src/lib.rs:647-674 | any deltas followed by a final item encode to chunks of which exactly the last carries usage, that of the item |
| Wire.ChunksAreWellShaped | llama-cpp-plugin/src/lib.rs:495-593 | only the chunk that announces pending calls has no content, and it has nothing else; no chunk carries an empty reasoning |
| Wire.FinalAnnouncesPending | llama-cpp-plugin/src/lib.rs:629-657 | the pending calls of the final item reach the host once, whole |
| Pipeline.StepKeepsInvariant | llama-cpp-plugin/src/lib.rs:980-1122 | every step of worker, forwarder, host and canceller keeps the queue bound and the FIFO accounting from what was produced over the channel and in-flight chunks to what was delivered |
| Pipeline.FaithfulDelivery | llama-cpp-plugin/src/lib.rs:1063-1111 | in every interleaving the host has received an in-order prefix of the planned chunks; a run that returns Ok delivered all of them with exactly one done chunk, in last place |
| Pipeline.NoEndOfChannel | llama-cpp-plugin/src/lib.rs:1109-1109 | the branch that reads a closed channel as success is never taken |
| Pipeline.StandstillExactly | llama-cpp-plugin/src/lib.rs:1063-1122 | no internal step is possible exactly when the run has returned, or the host has not answered a send and the worker waits or is gone |
| Pipeline.HostCanAnswer | llama-cpp-plugin/src/lib.rs:1112-1121 | a waiting send can be answered either way, and once the receiver is dropped the worker is never parked |
| Pipeline.SchedulesAreBounded | llama-cpp-plugin/src/lib.rs:980-1122 | every step of every participant decreases one measure, so every interleaving is finite |
| Pipeline.EveryRunReturns | llama-cpp-plugin/src/lib.rs:980-1122 | every schedule is bounded by planned items and sink calls, and one that cannot go on has returned with the worker gone |
| Pipeline.OkMeansUndisturbed | llama-cpp-plugin/src/lib.rs:597-606 | a run that returned Ok never raised the cancel flag |
| Pipeline.OkDeliversUsage | llama-cpp-plugin/src/lib.rs:647-674 | a run that returns Ok delivered the usage of the final item with its last chunk and with no other |
| Pipeline.VerdictExactly | llama-cpp-plugin/src/lib.rs:1063-1122 | a run returns Cancelled exactly when the forwarder noticed a cancel, which the host had requested, and an output error exactly when the host went away; any other run returns Ok for a final item and the message of the worker for an error item |
| Pipeline.FlagUpAlways | llama-cpp-plugin/src/lib.rs:1069-1090 | when the verdict is Cancelled or a lost output the flag is up |
| Pipeline.StoppedWorkerEnds | llama-cpp-plugin/src/lib.rs:1112-1121 | once the flag is up and the receiver gone, every worker step decreases a count that is at most three, and nothing more enters the channel |
| EndToEnd.PlainStreamDeliversSplit | llama-cpp-plugin/src/lib.rs:342-396 | for all pieces and interleavings, a plain stream that ends Ok lets the host hear the one-shot split of the generated text (or the text itself without extraction) |
| EndToEnd.ToolStreamDeliversUpdates | llama-cpp-plugin/src/lib.rs:403-488 | a tools stream that ends Ok delivers every update whole; the terminator that drops the last text drops nothing |
| EndToEnd.ItemsSpeak | llama-cpp-plugin/src/lib.rs:363-475 | the workers send nothing empty: at most one item per piece, at most two per update, text and calls apart |
| EndToEnd.ToolStreamRebuildsMessage | llama-cpp-plugin/src/model/wrapper.rs:573-620 | from parser to host: when every message is refused or grows out of the last one accepted, a tools stream that ends Ok lets the host rebuild body, content, reasoning and every call of the message last accepted |
| EndToEnd.ToolStreamAnnouncesStreamed | llama-cpp-plugin/src/oai_chat/common.rs:347-366 | when the final parse has the calls of the message last accepted, the pending calls announced are exactly the calls streamed, with the same names and arguments, and under the same id if and only if both ids got the same stamp |
| Serving.TextStreamIsFresh | llama-cpp-plugin/src/lib.rs:342-396 | after any run, with reuse on or off, a plain text stream that ends Ok lets the host hear the split of the reply a fresh context gives to this prompt, complete to its end token or cap, and its token counts |
| Serving.MediaStreamIsFresh | llama-cpp-plugin/src/lib.rs:1036-1047 | the multimodal counterpart, under the condition on bitmap hashes |
| Serving.StreamDeliversReply | llama-cpp-plugin/src/lib.rs:355-395 | a stream that ends Ok has delivered the whole reply of the engine and its token counts, raised no flag, and the engine did not fail |
| Serving.TextStreamAgreesWithReply | llama-cpp-plugin/src/model/wrapper.rs:452-457 | after any run, what the host of an Ok text stream with extracted reasoning hears agrees up to trimming with what the request without streaming is told by a fresh context, if and only if that reply has a single block |
| Serving.MediaStreamAgreesWithReply | llama-cpp-plugin/src/model/wrapper.rs:431-457 | the multimodal counterpart, under the condition on bitmap hashes |
| RerankerCache.Cache.Lookup | reranker-runner/src/cache.rs:30-44 | a live entry is returned and becomes the most recently used, an expired one is dropped and misses |
| RerankerCache.Cache.Store | reranker-runner/src/cache.rs:47-56 | a known key is replaced; a full cache first loses its least recently used entry |
| RerankerCache.Cache.GetOrCompute | reranker-runner/src/cache.rs:59-76 | a hit is returned as it is, a computed score is stored, a failed computation stores nothing |
| RerankerCache.LookupExact | reranker-runner/src/cache.rs:30-44 | after a miss no entry is left under the key, after a hit it is in front; every other entry stays |
| RerankerCache.HitExactly | reranker-runner/src/cache.rs:30-44 | a lookup hits exactly when there is an entry under the key that was stored less than the time to live ago |
| RerankerCache.PutThenGet | reranker-runner/src/cache.rs:30-56 | what was put is found exactly until its time stamp plus the time to live |
| RerankerCache.EvictsLeastRecentlyUsed | reranker-runner/src/cache.rs:47-56 | a put removes another entry exactly when the cache is full, the key new and the entry the last in the list |
| RerankerCache.ReplayIsOrdered | reranker-runner/src/cache.rs:30-56 | after every history of lookups and puts, entries stand in the order of the operation that last stored or found them, newest first |
| RerankerCache.EvictsEarliestUsed | reranker-runner/src/cache.rs:47-56 | after every history, a put removes another entry exactly when the cache is full, the key new and every other entry was used later |
| RerankerCache.LastUseIsLast | reranker-runner/src/cache.rs:30-56 | the last use of a key is an operation that used it, and no later one did |
| RerankerCache.HitIsLastStored | reranker-runner/src/cache.rs:30-44 | after every history, a hit is the score stored last under the key, and it has not expired |
| RerankerCache.HitSurvivesNextPut | reranker-runner/src/cache.rs:30-56 | a hit protects its entry from the next eviction |
| Reranker.LlamaReranker.ComputeScoresSequential | reranker-runner/src/reranker.rs:239-271 | each document its own score, or 0 where this inference fails, in order, unless a poll before a document finds the cancel |
| Reranker.LlamaReranker.CheckCache | reranker-runner/src/reranker.rs:320-335 | hits and missing positions, and the cache after all lookups |
| Reranker.LlamaReranker.SaveScores | reranker-runner/src/reranker.rs:365-371 | stores each new score under its document's key |
| Reranker.LlamaReranker.MergeScores | reranker-runner/src/reranker.rs:373-384 | the moving index gives each miss its new score in turn |
| Reranker.LlamaReranker.ComputeScoresWithCache | reranker-runner/src/reranker.rs:296-394 | all four phases together give the specified cache and reply |
| Reranker.ServeIsRight | reranker-runner/src/reranker.rs:296-394 | after a fair history every document gets its own score in its own place; it may be 0 only when its inference fails now, or the last score stored under its key stands for a failure and has not expired; hits and misses add up, and the history stays fair, cancellation included |
| Reranker.ServeIsExact | reranker-runner/src/reranker.rs:296-394 | after every history of the cache, with any keys, instructions, failures and cancellations: a miss is answered with what scoring yields now, a hit with the live score stored last under its key, each in its place, and the misses counted are the misses |
| Reranker.CancelledExactly | reranker-runner/src/reranker.rs:253-257 | a request is cancelled exactly when a poll before one of its misses finds the cancel, and then it has stored nothing |
| Reranker.MissingExactly | reranker-runner/src/reranker.rs:320-335 | the misses are the documents without a hit, in order |
| Reranker.RunIsRight | reranker-runner/src/reranker.rs:296-394 | the same as ServeIsRight for every reply of every run of requests |
| Reranker.RunIsExact | reranker-runner/src/reranker.rs:296-394 | the exact reply for every request of every run |
| Reranker.CachedScoringExact | reranker-runner/src/reranker.rs:320-384 | every run is right, whatever hits, misses, expiries, evictions, failures and cancellations, if and only if requests that share a key share their score |
| Reranker.FailureIsServedExactly | reranker-runner/src/reranker.rs:256-262 | the 0 of a failed inference answers the next request for the document exactly until it expires, although that request could have scored it |
| Reranker.OneInstructionIsSafe | reranker-runner/src/reranker.rs:320-384 | with one instruction throughout and a key injective on query and document, every reply of every run is right |
| Reranker.InstructionIsNotInKey | reranker-runner/src/utils.rs:2-11 | two instructions that score a document differently get one score: the key leaves the instruction out |
| RuleNames.RuleNamer.DedupRuleName | llama-cpp-plugin/src/oai_chat/common.rs:223-235 | the name returned is the one minted for the newest of all bases served |
| RuleNames.MintedDistinctExactly | llama-cpp-plugin/src/oai_chat/common.rs:219-235 | all minted names are distinct if and only if no base equals another base followed by a dash and a number that this other base is given |
| RuleNames.ToolRulesCanCollide | llama-cpp-plugin/src/oai_chat/common.rs:292-302 | three usable tool names that get only two rules |
| RuleNames.ToolBasesExact | llama-cpp-plugin/src/oai_chat/common.rs:292-302 | the base of every tool is made of all the words of its name; one name without a letter or digit refuses the list |
| RuleNames.GrammarRuleSuffix | llama-cpp-plugin/src/oai_chat/common.rs:304-321 | the loop with its last-was-dash flag computes the collapsed and trimmed suffix |
| RuleNames.RuleSuffixExact | llama-cpp-plugin/src/oai_chat/common.rs:304-321 | refused exactly without an ASCII letter or digit; the results are the clean suffixes, and the clean suffixes are the fixed points |
| RuleNames.SuffixIsWords | llama-cpp-plugin/src/oai_chat/common.rs:304-321 | a suffix is all maximal runs of letters and digits of the name, in order and in lower case, with one dash between; it is refused when there is none |
| RuleNames.AlnumExact | llama-cpp-plugin/src/oai_chat/common.rs:308-308 | letters and digits are those of ASCII |
| RuleNames.LowerExact | llama-cpp-plugin/src/oai_chat/common.rs:309-309 | each capital goes with its own small letter, nothing else changes |
| Decimal.StopThenShowInjective | llama-cpp-plugin/src/oai_chat/common.rs:228-232 | base and number can be read back from a name with a numeric suffix |
| Decimal.ShowExact | llama-cpp-plugin/src/oai_chat/common.rs:231-231 | decimal notation means its number, without leading zeros |
| Escaping.PushJsonStringFragment | llama-cpp-plugin/src/oai_chat/common.rs:484-495 | appends the escaped text |
| Escaping.EscapeGbnfLiteral | llama-cpp-plugin/src/oai_chat/common.rs:601-610 | returns the escaped text |
| Escaping.JsonRoundTrip | llama-cpp-plugin/src/oai_chat/common.rs:473-495 | reading an escaped text as the inside of a JSON string (section 7 of RFC 8259) returns it, for every text; a bare quote or control character would be an error |
| Escaping.GbnfRoundTrip | llama-cpp-plugin/src/oai_chat/common.rs:601-610 | reading an escaped GBNF literal returns the text, for every text |
| Escaping.EscapeJsonAppend | llama-cpp-plugin/src/oai_chat/common.rs:484-495 | escaping distributes over concatenation, so fragments can be streamed |
| Escaping.PlainStays | llama-cpp-plugin/src/oai_chat/common.rs:484-495 | text without quotes, backslashes and control characters is left as it is |
| Escaping.EscapedIsPrintable | llama-cpp-plugin/src/oai_chat/common.rs:488-490 | no control character is left in an escaped fragment |
| Escaping.EscapeGbnfAppend | llama-cpp-plugin/src/oai_chat/common.rs:601-610 | the same for GBNF literals |
| Escaping.GbnfPlainStays | llama-cpp-plugin/src/oai_chat/common.rs:601-610 | a GBNF literal escapes five characters and keeps all others |
| Escaping.FiveEscapes | llama-cpp-plugin/src/oai_chat/common.rs:473-482 | the quote, the backslash, newline, return and tab take two characters in both notations |
| Escaping.GbnfHasNoBreaks | llama-cpp-plugin/src/oai_chat/common.rs:601-610 | no line break, return or tab is left in a GBNF literal |
| Markers.InjectMarkers | mtmd-support/src/marker.rs:8-31 | the loop gives the specified result |
| Markers.AppendedIsLines | mtmd-support/src/marker.rs:13-25 | what is appended puts every marker on a line of its own after the prompt |
| Markers.InjectionExact | mtmd-support/src/marker.rs:8-31 | success extends the prompt and, unless the marker ends in a newline, to exactly one marker per medium; failure happens exactly when the prompt holds markers in another number than the media, and reports both numbers |
| Markers.InjectionCountsExactly | mtmd-support/src/marker.rs:8-31 | injection gives one marker per medium for every prompt and every number of media if and only if the marker is empty or does not end in a newline |
| Markers.TrailingNewlineMiscounts | mtmd-support/src/marker.rs:16-23 | for every longer marker that ends in a newline, the prompt that lacks only this newline gets two markers for one medium |
| Markers.NewlineMarkerMiscounts | mtmd-support/src/marker.rs:16-23 | the witness for the marker that is a newline |
| GenerationPrompt.StripGenerationPrompt | llama-cpp-plugin/src/model/helpers.rs:226-249 | removes the longest echoed prefix among the whole generation prompt, its newline-ended prefixes and nothing; the last fallback never finds anything |
| GenerationPrompt.LongestUnique | llama-cpp-plugin/src/model/helpers.rs:226-249 | that prefix is unique, so the result is determined |
| GenerationPrompt.HeaderIsFirstLine | llama-cpp-plugin/src/oai_chat/common.rs:464-468 | the header is the first line with its newline, or all of a prompt without one; the body is the rest |
| GenerationPrompt.HeaderAndBody | llama-cpp-plugin/src/oai_chat/common.rs:464-468 | header and body make up the prompt; a response echoing all of it loses all of it; one echoing the header loses the header and exactly what stripping the body would remove from the rest |

## Left out

- Numerics: logits, sampling arithmetic, softmax and scores are uninterpreted; that a
  batched evaluation and a token-by-token one agree bit for bit is part of the model,
  not proved. Scores are `real`.
- MTP speculative decoding (`SyncContextInner::Mtp`): library behaviour.
- Panics: the context is proved to be back in its slot on every return; the drop during
  unwinding is not modelled. Allocation sizes and raw-pointer guards are left out too.
- That hashes of bitmaps and reranker keys do not collide is a condition of the theorems
  about multimodal reuse and about scores; the exact conditions are
  `PrefixPlan.PlanSoundExactly`, `Sessions.MediaReuseSoundExactly` and
  `Reranker.CachedScoringExact`. Text requests need no such condition.
- The multimodal tokenizer is assumed to return at least one chunk, no chunk without
  positions, and at least one tile per bitmap, with the tiles in order
  (`PrefixPlan.Tokenized`).
- Strings are sequences of Unicode scalar values. Where the code compares byte lengths
  of arbitrary strings (`common.rs:548-555`) so does the model (`Text.ByteLen`);
  everywhere else bytes and characters agree, since only prefixes, suffixes and ASCII
  tags are compared. The UTF-8 decoder is part of the rendering function.
- The Qwen and Gemma parsers, template rendering and the grammar engine: a parser is any
  sequence of messages.
- JSON and protobuf encoding: deltas and chunks are datatypes. `requires_tool_execution`
  follows from the pending calls; durations in the usage are left out.
- `run_stream` is modelled as interleaved steps, not as imperative code: its steps run on
  two threads. Raising the flag and dropping the receiver are one step; the early cancel
  check before the worker is spawned, waiting for the model mutex and a worker that
  panics are not modelled. A cut-short worker may end with any final item or error.
- The reranker serves one request at a time in the model; requests that interleave
  between cache operations are not modelled. Document truncation, the hit rate and the
  reranker without a cache are left out as easy.
- Embedding chunking, downloads, settings, error classification, tracing and the plugin
  ABI: plumbing.
- `ParsedToolCall.id`: the streaming parsers never set it, so calls have a name and
  arguments only.
- That the final parse of a tools reply has the calls of the last streamed message is a
  premise of `EndToEnd.ToolStreamAnnouncesStreamed`: it is about the parsers.
