/** The reusable context with its prefix-reuse records (config.rs), and the batch
    it decodes. */
module Context {
  import opened Kv
  import opened PrefixPlan
  import opened Generation

  datatype BatchEntry = BatchEntry(token: Token, pos: nat, logits: bool)

  /** Entries for the tokens at positions `from .. to` of a prompt; only the very
      last position of the prompt asks for logits. */
  function Entries(tokens: seq<Token>, from: nat, to: nat): (r: seq<BatchEntry>)
    requires from <= to <= |tokens|
    ensures |r| == to - from
    ensures forall i :: 0 <= i < |r| ==> r[i] == BatchEntry(tokens[from + i], from + i, from + i == |tokens| - 1)
  {
    seq(to - from, i requires 0 <= i < to - from => BatchEntry(tokens[from + i], from + i, from + i == |tokens| - 1))
  }

  function TokensOf(batch: seq<BatchEntry>): (r: seq<Token>)
    ensures |r| == |batch|
    ensures forall i :: 0 <= i < |r| ==> r[i] == batch[i].token
  {
    seq(|batch|, i requires 0 <= i < |batch| => batch[i].token)
  }

  /** What `llama_decode` asserts about a batch on top of a cache of `n` cells. */
  predicate Decodable(batch: seq<BatchEntry>, n: nat, nBatch: nat) {
    && 0 < |batch| <= nBatch
    && forall i :: 0 <= i < |batch| ==> batch[i].pos == n + i
  }

  /** A `LlamaBatch`: adding beyond its capacity is refused. */
  class LlamaBatch {
    const capacity: nat
    var entries: seq<BatchEntry>

    constructor (capacity: nat)
      ensures this.capacity == capacity && entries == []
    {
      this.capacity := capacity;
      entries := [];
    }

    method Clear()
      modifies this
      ensures entries == []
    {
      entries := [];
    }

    method Add(token: Token, pos: nat, logits: bool) returns (ok: bool)
      modifies this
      ensures ok == (|old(entries)| < capacity)
      ensures entries == if ok then old(entries) + [BatchEntry(token, pos, logits)] else old(entries)
    {
      ok := |entries| < capacity;
      if ok {
        entries := entries + [BatchEntry(token, pos, logits)];
      }
    }
  }

  /** The part of the context that outlives a request: the cache, and the record
      of the prompt that filled it (tokens or chunks). */
  datatype KvState = KvState(kv: Cache, tokens: seq<Token>, chunks: seq<CachedChunk>)

  /** One chunk handed to the multimodal library: which, where, and whether its last
      position was asked for logits. */
  datatype ChunkEval = ChunkEval(index: nat, past: nat, logitsLast: bool)

  class SyncContext {
    const nCtx: nat
    const nBatch: nat
    var kv: Cache
    var cachedTokens: seq<Token>
    var cachedChunks: seq<CachedChunk>
    /** Logits flags of the last successful decode. */
    var outputs: seq<bool>
    /** Every batch handed to `llama_decode`, in order. */
    ghost var submitted: seq<seq<BatchEntry>>
    /** Every chunk handed to the multimodal library, in order. */
    ghost var evaluated: seq<ChunkEval>

    constructor (nCtx: nat, nBatch: nat)
      ensures this.nCtx == nCtx && this.nBatch == nBatch
      ensures State() == KvState([], [], [])
    {
      this.nCtx, this.nBatch := nCtx, nBatch;
      kv, cachedTokens, cachedChunks, outputs, submitted, evaluated := [], [], [], [], [], [];
    }

    function State(): KvState
      reads this
    {
      KvState(kv, cachedTokens, cachedChunks)
    }

    /** Entering the text path forgets the multimodal record. */
    method TakeTextCache() returns (cached: seq<Token>)
      modifies this`cachedTokens, this`cachedChunks
      ensures cached == old(cachedTokens)
      ensures cachedTokens == [] && cachedChunks == []
    {
      cachedChunks := [];
      cached := cachedTokens;
      cachedTokens := [];
    }

    method TakeChunkCache() returns (cached: seq<CachedChunk>)
      modifies this`cachedTokens, this`cachedChunks
      ensures cached == old(cachedChunks)
      ensures cachedTokens == [] && cachedChunks == []
    {
      cachedTokens := [];
      cached := cachedChunks;
      cachedChunks := [];
    }

    /** Keep the first `want` cells, or clear everything when nothing is wanted or
        the model refuses a partial removal. */
    method KeepPrefix(want: nat, removable: bool) returns (kept: nat)
      modifies this`kv
      ensures kept == if want > 0 && removable then want else 0
      ensures kv == if want > 0 && removable then Trim(old(kv), want) else []
    {
      if want > 0 && removable {
        kv := Trim(kv, want);
        kept := want;
      } else {
        kv := [];
        kept := 0;
      }
    }

    /** One `llama_decode` of a batch. */
    method Decode(batch: LlamaBatch, status: DecodeStatus) returns (ok: bool)
      requires Decodable(batch.entries, |kv|, nBatch)
      modifies this`kv, this`outputs, this`submitted
      ensures ok == status.Completed?
      ensures submitted == old(submitted) + [batch.entries]
      ensures kv == if ok then DecodeTokens(old(kv), TokensOf(batch.entries)) else status.left
      ensures ok ==>
        && |outputs| == |batch.entries|
        && forall i :: 0 <= i < |outputs| ==> outputs[i] == batch.entries[i].logits
    {
      submitted := submitted + [batch.entries];
      match status {
        case Completed =>
          ok := true;
          kv := DecodeTokens(kv, TokensOf(batch.entries));
          outputs := seq(|batch.entries|, i requires 0 <= i < |batch.entries| reads batch => batch.entries[i].logits);
        case Failed(left, _) =>
          ok := false;
          kv := left;
      }
    }

    /** Sampling reads the logits of entry `index` of the last batch (the last
        output for -1); they must have been asked for. */
    method Sample(m: Model, index: int, accepted: seq<Token>) returns (token: Token)
      requires outputs != []
      requires index == -1 ==> outputs[|outputs| - 1]
      requires index != -1 ==> 0 <= index < |outputs| && outputs[index]
      ensures token == m.sample(kv, accepted)
    {
      token := m.sample(kv, accepted);
    }
  }
}
