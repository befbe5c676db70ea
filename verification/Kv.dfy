/** The KV cache of one llama.cpp context, as the decode engine sees it.

    The model is a free term: evaluating one input on top of a cache appends one
    cell holding the whole cache it attended to and the input itself.  Every
    deterministic causal model factors through this one, so two equal caches here
    mean equal keys, values and logits there. */
module Kv {
  type Token = int

  /** A decoded image or audio clip.  `tilePositions` is what the projector makes
      of the pixels: one entry per tile, giving the KV positions the tile takes. */
  datatype Bitmap = Bitmap(pixels: seq<int>, tilePositions: seq<nat>)

  datatype Input =
    | Tok(token: Token)
    | Patch(bitmap: Bitmap, tile: nat, offset: nat)

  datatype Cell = Cell(past: seq<Cell>, input: Input)

  type Cache = seq<Cell>

  /** Evaluating `tokens` one after the other on top of `kv`. */
  function DecodeTokens(kv: Cache, tokens: seq<Token>): (r: Cache)
    ensures |r| == |kv| + |tokens|
    ensures kv <= r
    decreases |tokens|
  {
    if tokens == [] then kv
    else
      var before := DecodeTokens(kv, tokens[..|tokens| - 1]);
      before + [Cell(before, Tok(tokens[|tokens| - 1]))]
  }

  /** The cache of a fresh context prefilled with `tokens`. */
  function Fresh(tokens: seq<Token>): Cache {
    DecodeTokens([], tokens)
  }

  lemma {:induction false} DecodeAppend(kv: Cache, a: seq<Token>, b: seq<Token>)
    ensures DecodeTokens(kv, a + b) == DecodeTokens(DecodeTokens(kv, a), b)
    decreases |b|
  {
    if b == [] {
      assert a + b == a;
    } else {
      var front := b[..|b| - 1];
      assert (a + b)[..|a + b| - 1] == a + front;
      DecodeAppend(kv, a, front);
    }
  }

  /** Causality: cutting the cache after `n` tokens leaves what the first `n`
      tokens alone would have produced. */
  lemma {:induction false} DecodeTrim(kv: Cache, tokens: seq<Token>, n: nat)
    requires n <= |tokens|
    ensures DecodeTokens(kv, tokens)[..|kv| + n] == DecodeTokens(kv, tokens[..n])
  {
    DecodeAppend(kv, tokens[..n], tokens[n..]);
    assert tokens[..n] + tokens[n..] == tokens;
  }

  /** A cell remembers its token, so equal fresh caches come from equal prompts. */
  lemma {:induction false} FreshInjective(a: seq<Token>, b: seq<Token>)
    ensures Fresh(a) == Fresh(b) <==> a == b
    decreases |a|
  {
    if Fresh(a) == Fresh(b) {
      assert |a| == |b|;
      if a != [] {
        var n := |a| - 1;
        assert Fresh(a)[n] == Fresh(b)[n];
        assert a[n] == b[n];
        assert Fresh(a)[..n] == Fresh(a[..n]);
        assert Fresh(b)[..n] == Fresh(b[..n]);
        FreshInjective(a[..n], b[..n]);
        assert a == a[..n] + [a[n]];
        assert b == b[..n] + [b[n]];
      }
    }
  }

  /** Removing every cell at position `n` and beyond. */
  function Trim(kv: Cache, n: nat): Cache {
    if n <= |kv| then kv[..n] else kv
  }

  // ---- Multimodal prompts ----

  datatype Chunk =
    | TextChunk(tokens: seq<Token>)
    | MediaChunk(bitmap: Bitmap, tile: nat)

  /** KV positions a chunk takes; a tile the projector never makes takes none. */
  function NPos(c: Chunk): nat {
    match c
    case TextChunk(tokens) => |tokens|
    case MediaChunk(b, t) => if t < |b.tilePositions| then b.tilePositions[t] else 0
  }

  function Positions(chunks: seq<Chunk>): nat {
    if chunks == [] then 0
    else Positions(chunks[..|chunks| - 1]) + NPos(chunks[|chunks| - 1])
  }

  /** Text is causal; the patches of one tile all see the cache before the tile. */
  function EvalChunk(kv: Cache, c: Chunk): (r: Cache)
    ensures |r| == |kv| + NPos(c)
    ensures kv <= r
  {
    match c
    case TextChunk(tokens) => DecodeTokens(kv, tokens)
    case MediaChunk(b, t) => kv + seq(NPos(c), i requires 0 <= i => Cell(kv, Patch(b, t, i)))
  }

  function EvalChunks(kv: Cache, chunks: seq<Chunk>): (r: Cache)
    ensures |r| == |kv| + Positions(chunks)
    ensures kv <= r
    decreases |chunks|
  {
    if chunks == [] then kv
    else EvalChunk(EvalChunks(kv, chunks[..|chunks| - 1]), chunks[|chunks| - 1])
  }

  function FreshChunks(chunks: seq<Chunk>): Cache {
    EvalChunks([], chunks)
  }

  lemma {:induction false} EvalAppend(kv: Cache, a: seq<Chunk>, b: seq<Chunk>)
    ensures EvalChunks(kv, a + b) == EvalChunks(EvalChunks(kv, a), b)
    ensures Positions(a + b) == Positions(a) + Positions(b)
    decreases |b|
  {
    if b == [] {
      assert a + b == a;
    } else {
      var front := b[..|b| - 1];
      assert (a + b)[..|a + b| - 1] == a + front;
      EvalAppend(kv, a, front);
    }
  }

  lemma {:induction false} EvalTrim(kv: Cache, chunks: seq<Chunk>, n: nat)
    requires n <= |chunks|
    ensures Positions(chunks[..n]) <= Positions(chunks)
    ensures EvalChunks(kv, chunks)[..|kv| + Positions(chunks[..n])] == EvalChunks(kv, chunks[..n])
  {
    EvalAppend(kv, chunks[..n], chunks[n..]);
    assert chunks[..n] + chunks[n..] == chunks;
  }
}
