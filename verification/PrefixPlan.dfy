/** How much of the KV cache a new request may keep (helpers.rs). */
module PrefixPlan {
  import opened Options
  import opened Kv

  // ---- Text ----

  /** Number of leading tokens two prompts share. */
  function CommonPrefixLen(a: seq<Token>, b: seq<Token>): (n: nat)
    ensures n <= |a| && n <= |b|
  {
    if a == [] || b == [] || a[0] != b[0] then 0
    else 1 + CommonPrefixLen(a[1..], b[1..])
  }

  lemma HeadAndRest<T>(s: seq<T>, n: nat)
    requires 0 < n <= |s|
    ensures s[..n] == [s[0]] + s[1..][..n - 1]
  {
  }

  lemma {:induction false} CommonPrefixLenExact(a: seq<Token>, b: seq<Token>, n: nat)
    requires n <= |a| && n <= |b|
    ensures n <= CommonPrefixLen(a, b) <==> a[..n] == b[..n]
  {
    if n > 0 {
      HeadAndRest(a, n);
      HeadAndRest(b, n);
      if a[0] == b[0] {
        CommonPrefixLenExact(a[1..], b[1..], n - 1);
      }
    }
  }

  /** Tokens to keep.  The last prompt token is always evaluated again, because
      the first sample needs its logits; a tokenized prompt is never empty. */
  function PlanKvKeep(cached: seq<Token>, tokens: seq<Token>, reuse: bool): (n: nat)
    requires tokens != []
  {
    if !reuse || cached == [] then 0
    else
      var common := CommonPrefixLen(cached, tokens);
      if common < |tokens| - 1 then common else |tokens| - 1
  }

  /** With reuse on, `n` cells of the recorded prompt are exactly right for the
      new prompt, and leave a token to evaluate, if and only if `n` is within the
      plan.  So the plan is both sound and as long as it can be. */
  lemma {:induction false} PlanKvKeepExact(cached: seq<Token>, tokens: seq<Token>, n: nat)
    requires tokens != [] && n <= |cached|
    ensures n <= PlanKvKeep(cached, tokens, true)
       <==> n < |tokens| && Fresh(cached)[..n] == Fresh(tokens)[..n]
  {
    if n < |tokens| {
      CommonPrefixLenExact(cached, tokens, n);
      DecodeTrim([], cached, n);
      DecodeTrim([], tokens, n);
      FreshInjective(cached[..n], tokens[..n]);
    }
  }

  // ---- Multimodal ----

  /** A chunk as the record keeps it: text by its tokens, media by the hash of its
      bitmap (absent when the bitmaps ran out) and its number of positions. */
  datatype CachedChunk =
    | CachedText(tokens: seq<Token>)
    | CachedMedia(key: Option<nat>, nPos: nat)

  /** A media chunk without a key cannot be proven identical to another. */
  predicate Reusable(c: CachedChunk) {
    !(c.CachedMedia? && c.key.None?)
  }

  function MatchLen(a: seq<CachedChunk>, b: seq<CachedChunk>): (n: nat)
    ensures n <= |a| && n <= |b|
  {
    if a == [] || b == [] || a[0] != b[0] || !Reusable(a[0]) then 0
    else 1 + MatchLen(a[1..], b[1..])
  }

  lemma {:induction false} MatchLenExact(a: seq<CachedChunk>, b: seq<CachedChunk>, n: nat)
    requires n <= |a| && n <= |b|
    ensures n <= MatchLen(a, b)
       <==> a[..n] == b[..n] && forall i :: 0 <= i < n ==> Reusable(a[i])
  {
    if n > 0 {
      HeadAndRest(a, n);
      HeadAndRest(b, n);
      if a[0] == b[0] {
        MatchLenExact(a[1..], b[1..], n - 1);
        assert forall i :: 0 <= i < n - 1 ==> a[1..][i] == a[i + 1];
        if forall i :: 0 <= i < n - 1 ==> Reusable(a[1..][i]) {
          forall i | 1 <= i < n ensures Reusable(a[i]) {
            assert a[i] == a[1..][i - 1];
          }
        }
      }
    }
  }

  function Sum(ns: seq<nat>): nat {
    if ns == [] then 0 else Sum(ns[..|ns| - 1]) + ns[|ns| - 1]
  }

  /** Leading chunks to keep and the KV positions they take. */
  function PlanChunkKeep(cached: seq<CachedChunk>, described: seq<CachedChunk>, nPos: seq<nat>, reuse: bool)
    : (r: (nat, nat))
    requires |nPos| == |described|
    ensures r.0 <= |described|
  {
    if !reuse || cached == [] || described == [] then (0, 0)
    else
      var m := MatchLen(cached, described);
      var matched := if m == |described| then m - 1 else m;
      (matched, Sum(nPos[..matched]))
  }

  // ---- Describing a tokenized prompt ----

  /** A prompt after multimodal tokenization, with the bitmaps it came from. */
  datatype Prompt = Prompt(chunks: seq<Chunk>, bitmaps: seq<Bitmap>)

  function MediaCount(chunks: seq<Chunk>): (n: nat)
    ensures n <= |chunks|
  {
    if chunks == [] then 0
    else MediaCount(chunks[..|chunks| - 1]) + (if chunks[|chunks| - 1].MediaChunk? then 1 else 0)
  }

  /** One media chunk takes one bitmap, in order; when a bitmap was split in
      several tiles the bitmaps run out and the remaining chunks get no key. */
  function DescribeAt(chunks: seq<Chunk>, i: nat, bitmaps: seq<Bitmap>, key: Bitmap -> nat): CachedChunk
    requires i < |chunks|
  {
    match chunks[i]
    case TextChunk(tokens) => CachedText(tokens)
    case MediaChunk(_, _) =>
      var k := MediaCount(chunks[..i]);
      CachedMedia(if k < |bitmaps| then Some(key(bitmaps[k])) else None, NPos(chunks[i]))
  }

  ghost function Describe(p: Prompt, key: Bitmap -> nat): (r: seq<CachedChunk>)
    ensures |r| == |p.chunks|
    ensures forall i :: 0 <= i < |r| ==> r[i] == DescribeAt(p.chunks, i, p.bitmaps, key)
  {
    seq(|p.chunks|, i requires 0 <= i < |p.chunks| => DescribeAt(p.chunks, i, p.bitmaps, key))
  }

  ghost function NPosOf(chunks: seq<Chunk>): (r: seq<nat>)
    ensures |r| == |chunks|
    ensures forall i :: 0 <= i < |r| ==> r[i] == NPos(chunks[i])
  {
    seq(|chunks|, i requires 0 <= i < |chunks| => NPos(chunks[i]))
  }

  method DescribeChunks(p: Prompt, key: Bitmap -> nat)
    returns (described: seq<CachedChunk>, nPos: seq<nat>)
    ensures described == Describe(p, key)
    ensures nPos == NPosOf(p.chunks)
  {
    described, nPos := [], [];
    var next := 0;
    for i := 0 to |p.chunks|
      invariant |described| == |nPos| == i
      invariant forall j :: 0 <= j < i ==> described[j] == DescribeAt(p.chunks, j, p.bitmaps, key)
      invariant forall j :: 0 <= j < i ==> nPos[j] == NPos(p.chunks[j])
      invariant next == if MediaCount(p.chunks[..i]) < |p.bitmaps| then MediaCount(p.chunks[..i]) else |p.bitmaps|
    {
      assert p.chunks[..i + 1][..i] == p.chunks[..i];
      var chunk := p.chunks[i];
      match chunk {
        case TextChunk(tokens) =>
          described := described + [CachedText(tokens)];
        case MediaChunk(_, _) =>
          var k := None;
          if next < |p.bitmaps| {
            k := Some(key(p.bitmaps[next]));
            next := next + 1;
          }
          described := described + [CachedMedia(k, NPos(chunk))];
      }
      nPos := nPos + [NPos(chunk)];
    }
  }

  lemma {:induction false} SumPositions(chunks: seq<Chunk>, n: nat)
    requires n <= |chunks|
    ensures Sum(NPosOf(chunks)[..n]) == Positions(chunks[..n])
  {
    if n > 0 {
      SumPositions(chunks, n - 1);
      assert NPosOf(chunks)[..n][..n - 1] == NPosOf(chunks)[..n - 1];
      assert chunks[..n][..n - 1] == chunks[..n - 1];
    }
  }

  /** Positions a description accounts for. */
  function RecordedPositions(described: seq<CachedChunk>): nat {
    if described == [] then 0
    else
      var last := described[|described| - 1];
      RecordedPositions(described[..|described| - 1]) + (if last.CachedText? then |last.tokens| else last.nPos)
  }

  lemma {:induction false} DescribedPositions(p: Prompt, key: Bitmap -> nat, n: nat)
    requires n <= |p.chunks|
    ensures RecordedPositions(Describe(p, key)[..n]) == Positions(p.chunks[..n])
  {
    if n > 0 {
      DescribedPositions(p, key, n - 1);
      var d := Describe(p, key);
      assert d[..n][..n - 1] == d[..n - 1] && p.chunks[..n][..n - 1] == p.chunks[..n - 1];
    }
  }

  lemma {:induction false} RecordedPrefix(described: seq<CachedChunk>, n: nat)
    requires n <= |described|
    ensures RecordedPositions(described[..n]) <= RecordedPositions(described)
    decreases |described|
  {
    if n == |described| {
      assert described[..n] == described;
    } else {
      var front := described[..|described| - 1];
      RecordedPrefix(front, n);
      assert front[..n] == described[..n];
    }
  }

  // ---- What a matching description proves ----

  function TilesOf(b: Bitmap, n: nat): (r: seq<Chunk>)
    ensures |r| == n
    ensures forall t :: 0 <= t < n ==> r[t] == MediaChunk(b, t)
  {
    seq(n, t requires 0 <= t => MediaChunk(b, t))
  }

  /** The media chunks the tokenizer makes of `bitmaps`: every tile, in order. */
  function Tiles(bitmaps: seq<Bitmap>): seq<Chunk> {
    if bitmaps == [] then [] else TilesOf(bitmaps[0], |bitmaps[0].tilePositions|) + Tiles(bitmaps[1..])
  }

  function MediaOf(chunks: seq<Chunk>): (r: seq<Chunk>)
    ensures |r| == MediaCount(chunks)
  {
    if chunks == [] then []
    else MediaOf(chunks[..|chunks| - 1]) +
         (if chunks[|chunks| - 1].MediaChunk? then [chunks[|chunks| - 1]] else [])
  }

  /** At least one tile, no tile without positions. */
  predicate Usable(b: Bitmap) {
    b.tilePositions != [] && forall t :: 0 <= t < |b.tilePositions| ==> b.tilePositions[t] > 0
  }

  /** What the multimodal tokenizer guarantees: at least one chunk, no chunk
      without positions, and the media chunks are the tiles of the bitmaps. */
  predicate Tokenized(p: Prompt) {
    && p.chunks != []
    && (forall i :: 0 <= i < |p.chunks| ==> NPos(p.chunks[i]) > 0)
    && (forall i :: 0 <= i < |p.bitmaps| ==> Usable(p.bitmaps[i]))
    && MediaOf(p.chunks) == Tiles(p.bitmaps)
  }

  lemma {:induction false} MediaPrefix(chunks: seq<Chunk>, i: nat)
    requires i <= |chunks|
    ensures MediaOf(chunks[..i]) <= MediaOf(chunks)
    decreases |chunks|
  {
    if i < |chunks| {
      MediaPrefix(chunks[..|chunks| - 1], i);
      assert chunks[..|chunks| - 1][..i] == chunks[..i];
    } else {
      assert chunks[..i] == chunks;
    }
  }

  lemma {:induction false} MediaAt(chunks: seq<Chunk>, i: nat)
    requires i < |chunks| && chunks[i].MediaChunk?
    ensures MediaCount(chunks[..i]) < MediaCount(chunks)
    ensures MediaOf(chunks)[MediaCount(chunks[..i])] == chunks[i]
    decreases |chunks|
  {
    var front := chunks[..|chunks| - 1];
    if i < |front| {
      MediaAt(front, i);
      assert front[..i] == chunks[..i];
    }
  }

  predicate LooksLike(a: Bitmap, b: Bitmap, key: Bitmap -> nat) {
    Usable(a) && Usable(b) && key(a) == key(b) && a.tilePositions[0] == b.tilePositions[0]
  }

  /** The key tells bitmaps apart as far as the plan needs it: two different bitmaps
      with the same key at least make first tiles of different sizes. */
  predicate Distinguishes(key: Bitmap -> nat, bitmaps: set<Bitmap>) {
    forall a, b :: a in bitmaps && b in bitmaps && LooksLike(a, b, key) ==> a == b
  }

  predicate DrawnFrom(p: Prompt, bitmaps: set<Bitmap>) {
    forall i :: 0 <= i < |p.bitmaps| ==> p.bitmaps[i] in bitmaps
  }

  /** The first `n` bitmaps have the same keys. */
  predicate SameKeys(bs: seq<Bitmap>, cs: seq<Bitmap>, n: nat, key: Bitmap -> nat) {
    n <= |bs| && n <= |cs| && forall j :: 0 <= j < n ==> key(bs[j]) == key(cs[j])
  }

  predicate AllUsable(bs: seq<Bitmap>, bitmaps: set<Bitmap>) {
    forall j :: 0 <= j < |bs| ==> Usable(bs[j]) && bs[j] in bitmaps
  }

  lemma FirstTile(bs: seq<Bitmap>, k: nat)
    requires bs != [] && bs[0].tilePositions != [] && k < |Tiles(bs)|
    ensures Tiles(bs)[0] == MediaChunk(bs[0], 0)
    ensures k < |bs[0].tilePositions| ==> Tiles(bs)[k] == MediaChunk(bs[0], k)
    ensures k >= |bs[0].tilePositions| ==>
      var n := |bs[0].tilePositions|; k - n < |Tiles(bs[1..])| && Tiles(bs)[k] == Tiles(bs[1..])[k - n]
  {
  }

  lemma TilesAfterFirst(bs: seq<Bitmap>, k: nat)
    requires bs != [] && |bs[0].tilePositions| <= k <= |Tiles(bs)|
    ensures var n := |bs[0].tilePositions|;
      k - n <= |Tiles(bs[1..])| && Tiles(bs)[n..k] == Tiles(bs[1..])[..k - n]
  {
  }

  /** The tile after an agreeing prefix agrees, if it takes the same positions and
      the bitmaps up to its index have the same keys: it either continues a bitmap
      already fixed by the prefix or is the first tile of one with a checked key. */
  lemma {:induction false} NextTileAgrees(bs: seq<Bitmap>, cs: seq<Bitmap>, k: nat, key: Bitmap -> nat,
                                          bitmaps: set<Bitmap>)
    requires AllUsable(bs, bitmaps) && AllUsable(cs, bitmaps) && Distinguishes(key, bitmaps)
    requires k < |Tiles(bs)| && k < |Tiles(cs)| && Tiles(bs)[..k] == Tiles(cs)[..k]
    requires SameKeys(bs, cs, k + 1, key)
    requires NPos(Tiles(bs)[k]) == NPos(Tiles(cs)[k])
    ensures Tiles(bs)[k] == Tiles(cs)[k]
    decreases k
  {
    hide Tiles, Distinguishes;
    FirstTile(bs, k);
    FirstTile(cs, k);
    if k == 0 {
      SameFirstTile(bs[0], cs[0], key, bitmaps);
    } else {
      assert Tiles(bs)[..k][0] == Tiles(cs)[..k][0];
      var n := |bs[0].tilePositions|;
      if k >= n {
        TilesAfterFirst(bs, k);
        TilesAfterFirst(cs, k);
        assert Tiles(bs)[n..k] == Tiles(bs)[..k][n..] == Tiles(cs)[n..k];
        NextTileAgrees(bs[1..], cs[1..], k - n, key, bitmaps);
      }
    }
  }

  lemma SameFirstTile(a: Bitmap, b: Bitmap, key: Bitmap -> nat, bitmaps: set<Bitmap>)
    requires a in bitmaps && b in bitmaps && Usable(a) && Usable(b) && Distinguishes(key, bitmaps)
    requires key(a) == key(b) && NPos(MediaChunk(a, 0)) == NPos(MediaChunk(b, 0))
    ensures a == b
  {
    assert LooksLike(a, b, key);
  }

  /** One step of the comparison: media chunk `i` follows an agreeing prefix and is
      described alike and reusably in both prompts. */
  lemma {:induction false} MatchingMedia(p: Prompt, q: Prompt, key: Bitmap -> nat, bitmaps: set<Bitmap>, i: nat)
    requires Tokenized(p) && Tokenized(q)
    requires DrawnFrom(p, bitmaps) && DrawnFrom(q, bitmaps) && Distinguishes(key, bitmaps)
    requires i < |p.chunks| && i < |q.chunks| && p.chunks[i].MediaChunk? && q.chunks[i].MediaChunk?
    requires p.chunks[..i] == q.chunks[..i] && NPos(p.chunks[i]) == NPos(q.chunks[i])
    requires SameKeys(p.bitmaps, q.bitmaps, MediaCount(p.chunks[..i]) + 1, key)
    ensures p.chunks[i] == q.chunks[i]
  {
    hide Distinguishes, Tiles, NPos, Usable;
    var k := MediaCount(p.chunks[..i]);
    MediaAt(p.chunks, i);
    MediaAt(q.chunks, i);
    MediaPrefix(p.chunks, i);
    MediaPrefix(q.chunks, i);
    assert Tiles(p.bitmaps)[..k] == MediaOf(p.chunks[..i]) == Tiles(q.bitmaps)[..k];
    NextTileAgrees(p.bitmaps, q.bitmaps, k, key, bitmaps);
  }

  lemma {:induction false} MatchingChunk(p: Prompt, q: Prompt, key: Bitmap -> nat, bitmaps: set<Bitmap>, i: nat)
    requires Tokenized(p) && Tokenized(q)
    requires DrawnFrom(p, bitmaps) && DrawnFrom(q, bitmaps) && Distinguishes(key, bitmaps)
    requires i < |p.chunks| && i < |q.chunks|
    requires DescribeAt(p.chunks, i, p.bitmaps, key) == DescribeAt(q.chunks, i, q.bitmaps, key)
    requires Reusable(DescribeAt(p.chunks, i, p.bitmaps, key))
    requires p.chunks[..i] == q.chunks[..i]
    requires SameKeys(p.bitmaps, q.bitmaps, MediaCount(p.chunks[..i]), key)
    ensures p.chunks[i] == q.chunks[i]
    ensures p.chunks[i].MediaChunk? ==> SameKeys(p.bitmaps, q.bitmaps, MediaCount(p.chunks[..i]) + 1, key)
  {
    hide Distinguishes, Tokenized, DrawnFrom, MediaCount;
    if p.chunks[i].MediaChunk? {
      MatchingMedia(p, q, key, bitmaps, i);
    }
  }

  predicate SameUpTo(p: Prompt, q: Prompt, n: nat, key: Bitmap -> nat)
    requires n <= |p.chunks| && n <= |q.chunks|
  {
    p.chunks[..n] == q.chunks[..n] && SameKeys(p.bitmaps, q.bitmaps, MediaCount(p.chunks[..n]), key)
  }

  lemma NothingDiffers(p: Prompt, q: Prompt, key: Bitmap -> nat)
    ensures SameUpTo(p, q, 0, key)
  {
  }

  lemma SameOneFurther(p: Prompt, q: Prompt, key: Bitmap -> nat, bitmaps: set<Bitmap>, i: nat)
    requires Tokenized(p) && Tokenized(q)
    requires DrawnFrom(p, bitmaps) && DrawnFrom(q, bitmaps) && Distinguishes(key, bitmaps)
    requires i < |p.chunks| && i < |q.chunks| && SameUpTo(p, q, i, key)
    requires DescribeAt(p.chunks, i, p.bitmaps, key) == DescribeAt(q.chunks, i, q.bitmaps, key)
    requires Reusable(DescribeAt(p.chunks, i, p.bitmaps, key))
    ensures SameUpTo(p, q, i + 1, key)
  {
    hide Tokenized, DrawnFrom, Distinguishes, Reusable, DescribeAt, SameKeys;
    MatchingChunk(p, q, key, bitmaps, i);
    assert p.chunks[..i + 1] == p.chunks[..i] + [p.chunks[i]];
    assert q.chunks[..i + 1] == q.chunks[..i] + [q.chunks[i]];
    assert p.chunks[..i + 1][..i] == p.chunks[..i];
  }

  /** The heart of multimodal reuse.  When the key tells bitmaps apart, chunks whose
      descriptions match and are reusable are the very same chunks, although the
      description pairs the k-th media chunk with the k-th bitmap even when an
      earlier bitmap was cut into several tiles. */
  lemma {:induction false} MatchingChunksAreEqual(p: Prompt, q: Prompt, key: Bitmap -> nat, bitmaps: set<Bitmap>,
                                                  n: nat)
    requires Tokenized(p) && Tokenized(q)
    requires DrawnFrom(p, bitmaps) && DrawnFrom(q, bitmaps) && Distinguishes(key, bitmaps)
    requires n <= |p.chunks| && n <= |q.chunks|
    requires forall i :: 0 <= i < n ==> Describe(p, key)[i] == Describe(q, key)[i] && Reusable(Describe(p, key)[i])
    ensures SameUpTo(p, q, n, key)
  {
    hide Tokenized, DrawnFrom, Distinguishes, Reusable, DescribeAt, SameUpTo;
    if n == 0 {
      NothingDiffers(p, q, key);
    } else {
      var i := n - 1;
      MatchingChunksAreEqual(p, q, key, bitmaps, i);
      assert Describe(p, key)[i] == Describe(q, key)[i] && Reusable(Describe(p, key)[i]);
      SameOneFurther(p, q, key, bitmaps, i);
    }
  }

  /** What the plan promises about the kept chunks: they leave at least one chunk
      to evaluate, none is an unkeyed media chunk, they take the planned number of
      positions, and one more chunk could only be kept by breaking one of those. */
  lemma {:induction false} PlanChunkKeepExact(prior: seq<CachedChunk>, p: Prompt, key: Bitmap -> nat, n: nat)
    requires Tokenized(p) && prior != [] && n <= |prior|
    ensures var d := Describe(p, key); var plan := PlanChunkKeep(prior, d, NPosOf(p.chunks), true);
      && plan.1 == Positions(p.chunks[..plan.0])
      && (n <= plan.0 <==> n < |d| && prior[..n] == d[..n] && forall i :: 0 <= i < n ==> Reusable(prior[i]))
  {
    var d := Describe(p, key);
    var plan := PlanChunkKeep(prior, d, NPosOf(p.chunks), true);
    SumPositions(p.chunks, plan.0);
    if n <= |d| {
      MatchLenExact(prior, d, n);
    }
  }

  /** Keeping the planned chunks keeps exactly the cells a full evaluation of the
      new prompt would have made for them, and leaves a chunk to evaluate. */
  ghost predicate PlanKeepsFresh(prior: Prompt, p: Prompt, key: Bitmap -> nat) {
    var plan := PlanChunkKeep(Describe(prior, key), Describe(p, key), NPosOf(p.chunks), true);
    && plan.0 < |p.chunks|
    && plan.1 <= |FreshChunks(prior.chunks)|
    && FreshChunks(prior.chunks)[..plan.1] == FreshChunks(p.chunks[..plan.0])
  }

  lemma {:induction false} PlannedChunksAreFresh(prior: Prompt, p: Prompt, key: Bitmap -> nat, bitmaps: set<Bitmap>)
    requires Tokenized(prior) && Tokenized(p)
    requires DrawnFrom(prior, bitmaps) && DrawnFrom(p, bitmaps) && Distinguishes(key, bitmaps)
    ensures PlanKeepsFresh(prior, p, key)
  {
    hide EvalChunks, DrawnFrom, Distinguishes, Reusable, NPos, MediaOf, Tiles;
    var o, d := Describe(prior, key), Describe(p, key);
    var plan := PlanChunkKeep(o, d, NPosOf(p.chunks), true);
    var n := plan.0;
    PlanChunkKeepExact(o, p, key, n);
    forall i | 0 <= i < n ensures o[i] == d[i] {
      assert o[..n][i] == d[..n][i];
    }
    MatchingChunksAreEqual(prior, p, key, bitmaps, n);
    EvalTrim([], prior.chunks, n);
  }

  // ---- When the plan is right ----

  /** The prompt of one image and a token. */
  function ImagePrompt(b: Bitmap): Prompt {
    Prompt(TilesOf(b, |b.tilePositions|) + [TextChunk([1])], [b])
  }

  lemma {:induction false} MediaOfMedia(chunks: seq<Chunk>)
    requires forall i :: 0 <= i < |chunks| ==> chunks[i].MediaChunk?
    ensures MediaOf(chunks) == chunks
  {
    if chunks != [] {
      MediaOfMedia(chunks[..|chunks| - 1]);
    }
  }

  lemma ImagePromptIsTokenized(b: Bitmap)
    requires Usable(b)
    ensures Tokenized(ImagePrompt(b))
  {
    hide MediaOf, Tiles;
    var p, tiles := ImagePrompt(b), TilesOf(b, |b.tilePositions|);
    ImageMedia(b);
    assert forall i :: 0 <= i < |p.chunks| - 1 ==> p.chunks[i] == tiles[i];
  }

  lemma ImageMedia(b: Bitmap)
    ensures MediaOf(ImagePrompt(b).chunks) == Tiles([b])
  {
    var chunks, tiles := ImagePrompt(b).chunks, TilesOf(b, |b.tilePositions|);
    MediaOfMedia(tiles);
    assert chunks[..|chunks| - 1] == tiles;
    assert [b][1..] == [] && tiles + [] == tiles;
  }

  /** The first cell of a prompt that starts with an image shows that image. */
  lemma FirstCell(chunks: seq<Chunk>, n: nat)
    requires 0 < n <= |chunks| && chunks[0].MediaChunk? && NPos(chunks[0]) > 0
    ensures FreshChunks(chunks[..n]) != []
    ensures FreshChunks(chunks[..n])[0].input == Patch(chunks[0].bitmap, chunks[0].tile, 0)
  {
    var c := chunks[..n];
    assert c[..1] == [chunks[0]] && [chunks[0]][..0] == [];
    EvalTrim([], c, 1);
    assert FreshChunks(c)[..Positions(c[..1])] == EvalChunk([], chunks[0]);
  }

  /** Two different images that look alike make the plan keep the wrong one. */
  lemma CollisionReusesWrongImage(a: Bitmap, b: Bitmap, key: Bitmap -> nat)
    requires a != b && LooksLike(a, b, key)
    ensures !PlanKeepsFresh(ImagePrompt(a), ImagePrompt(b), key)
  {
    hide EvalChunks, Tokenized, MatchLen;
    var prior, p := ImagePrompt(a), ImagePrompt(b);
    var o, d := Describe(prior, key), Describe(p, key);
    var plan := PlanChunkKeep(o, d, NPosOf(p.chunks), true);
    ImagePromptIsTokenized(b);
    FirstDescribed(a, key);
    FirstDescribed(b, key);
    assert o[..1] == [o[0]] == d[..1];
    PlanChunkKeepExact(o, p, key, 1);
    FirstCell(p.chunks, plan.0);
    assert prior.chunks[..|prior.chunks|] == prior.chunks;
    FirstCell(prior.chunks, |prior.chunks|);
  }

  lemma FirstDescribed(b: Bitmap, key: Bitmap -> nat)
    requires Usable(b)
    ensures var p := ImagePrompt(b);
      && p.chunks[0] == MediaChunk(b, 0) && |p.chunks| >= 2
      && Describe(p, key)[0] == CachedMedia(Some(key(b)), b.tilePositions[0])
  {
    assert ImagePrompt(b).chunks[..0] == [];
  }

  ghost predicate PlanAlwaysSound(key: Bitmap -> nat, bitmaps: set<Bitmap>) {
    forall prior, p :: Tokenized(prior) && Tokenized(p) && DrawnFrom(prior, bitmaps) && DrawnFrom(p, bitmaps) ==>
      PlanKeepsFresh(prior, p, key)
  }

  /** The plan is sound for every two prompts over a set of bitmaps if and only if no
      two different usable ones share the key and the positions of the first tile.
      Collisions between images of different sizes do no harm. */
  lemma PlanSoundExactly(key: Bitmap -> nat, bitmaps: set<Bitmap>)
    ensures PlanAlwaysSound(key, bitmaps) <==> Distinguishes(key, bitmaps)
  {
    hide PlanKeepsFresh, Tokenized, LooksLike;
    if Distinguishes(key, bitmaps) {
      forall prior, p | Tokenized(prior) && Tokenized(p) && DrawnFrom(prior, bitmaps) && DrawnFrom(p, bitmaps)
        ensures PlanKeepsFresh(prior, p, key)
      {
        PlannedChunksAreFresh(prior, p, key, bitmaps);
      }
    } else {
      var a, b :| a in bitmaps && b in bitmaps && LooksLike(a, b, key) && a != b;
      CollisionReusesWrongImage(a, b, key);
      LookalikesAreUsable(a, b, key);
      ImagePromptIsTokenized(a);
      ImagePromptIsTokenized(b);
      assert DrawnFrom(ImagePrompt(a), bitmaps) && DrawnFrom(ImagePrompt(b), bitmaps);
    }
  }

  lemma LookalikesAreUsable(a: Bitmap, b: Bitmap, key: Bitmap -> nat)
    requires LooksLike(a, b, key)
    ensures Usable(a) && Usable(b)
  {
  }
}
