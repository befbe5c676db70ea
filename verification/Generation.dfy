/** The token loop shared by the text and the multimodal engine (decode.rs). */
module Generation {
  import opened Options
  import opened Kv
  import opened Text

  /** What the loaded model and the sampler chain do, all deterministic: the next
      token from the cache and the tokens accepted so far, the end-of-generation
      test, and the text piece the newest token adds (absent on a rendering error;
      the incremental UTF-8 decoder makes it depend on the earlier tokens). */
  datatype Model = Model(
    sample: (Cache, seq<Token>) -> Token,
    endOfGeneration: Token -> bool,
    piece: seq<Token> -> Option<string>)

  /** Result of one `llama_decode`.  A failure, or an abort by the cancel flag,
      leaves an arbitrary cache behind. */
  datatype DecodeStatus = Completed | Failed(left: Cache, cancelSeen: bool)

  /** What the host does while tokens are generated: the cancel flag as read at
      the head of round `n`, the sink's answer to the pieces sent so far, and the
      fate of the decode in round `n`. */
  datatype Host = Host(
    cancelled: nat -> bool,
    sinkBreaks: seq<string> -> bool,
    decodes: nat -> DecodeStatus)

  datatype Ending = Finished | StopMatched | Interrupted | Errored

  /** Loop variables besides the cache: tokens decoded, text so far, tokens
      accepted by the sampler, pieces given to the sink. */
  datatype Progress = Progress(n: nat, text: string, tokens: seq<Token>, pieces: seq<string>)

  const START := Progress(0, "", [], [])

  datatype Outcome = Outcome(kv: Cache, progress: Progress, ending: Ending)

  /** A round of the loop ends it or hands on. */
  datatype Round = Last(outcome: Outcome) | Next(kv: Cache, progress: Progress)

  /** Length of the first non-empty stop string that `text` ends with. */
  function MatchedStop(text: string, stops: seq<string>): (r: Option<nat>)
    ensures r.Some? ==> 0 < r.value <= |text| && text[|text| - r.value..] in stops
    ensures r.None? ==> forall s :: s in stops && s != "" ==> !EndsWith(text, s)
  {
    if stops == [] then None
    else if stops[0] != "" && EndsWith(text, stops[0]) then Some(|stops[0]|)
    else MatchedStop(text, stops[1..])
  }

  /** One round: poll, sample, render, send, look for a stop string, decode. */
  function GenerateRound(kv: Cache, g: Progress, stops: seq<string>, m: Model, h: Host): (r: Round)
    ensures r.Next? ==> r.progress.n == g.n + 1
  {
    if h.cancelled(g.n) then Last(Outcome(kv, g, Interrupted))
    else
      var token := m.sample(kv, g.tokens);
      var tokens := g.tokens + [token];
      if m.endOfGeneration(token) then Last(Outcome(kv, g, Finished))
      else
        match m.piece(tokens)
        case None => Last(Outcome(kv, g, Errored))
        case Some(piece) =>
          var sent := Progress(g.n, g.text + piece, tokens, g.pieces + [piece]);
          match MatchedStop(sent.text, stops)
          case Some(len) =>
            Last(Outcome(kv, sent.(n := g.n + 1, text := sent.text[..|sent.text| - len]), StopMatched))
          case None =>
            if h.sinkBreaks(sent.pieces) then Last(Outcome(kv, sent, Interrupted))
            else
              match h.decodes(g.n)
              case Failed(left, seen) => Last(Outcome(left, sent, if seen then Interrupted else Errored))
              case Completed => Next(kv + [Cell(kv, Tok(token))], sent.(n := g.n + 1))
  }

  /** The whole loop; `budget` is what is left of the position cap. */
  function Generate(kv: Cache, budget: nat, g: Progress, stops: seq<string>, m: Model, h: Host): Outcome
    decreases budget
  {
    if budget == 0 then Outcome(kv, g, Finished)
    else
      match GenerateRound(kv, g, stops, m, h)
      case Last(o) => o
      case Next(kv', g') => Generate(kv', budget - 1, g', stops, m, h)
  }

  /** No prefix of the pieces, cut at a piece boundary, ends with a stop string. */
  predicate NoStopAtBoundary(pieces: seq<string>, stops: seq<string>) {
    forall k, s :: 0 < k <= |pieces| && s in stops && s != "" ==> !EndsWith(Concat(pieces[..k]), s)
  }

  lemma NoStopSnoc(pieces: seq<string>, last: string, stops: seq<string>)
    requires NoStopAtBoundary(pieces, stops)
    requires forall s :: s in stops && s != "" ==> !EndsWith(Concat(pieces) + last, s)
    ensures NoStopAtBoundary(pieces + [last], stops)
  {
    var all := pieces + [last];
    forall k, s | 0 < k <= |all| && s in stops && s != ""
      ensures !EndsWith(Concat(all[..k]), s)
    {
      if k == |all| {
        assert all[..k] == all;
        ConcatSnoc(pieces, last);
      } else {
        assert all[..k] == pieces[..k];
      }
    }
  }

  /** The text returned is the pieces given to the sink, minus the first matching stop
      string when the loop ended on one, and no earlier boundary ended in a stop. */
  predicate TextIsPieces(o: Outcome, stops: seq<string>) {
    var pieces, text := o.progress.pieces, o.progress.text;
    if o.ending.StopMatched? then
      && pieces != []
      && NoStopAtBoundary(pieces[..|pieces| - 1], stops)
      && text <= Concat(pieces)
      && Concat(pieces)[|text|..] != ""
      && Concat(pieces)[|text|..] in stops
      && MatchedStop(Concat(pieces), stops) == Some(|Concat(pieces)| - |text|)
    else
      && text == Concat(pieces)
      && NoStopAtBoundary(pieces, stops)
  }

  predicate TextSoFar(g: Progress, stops: seq<string>) {
    g.text == Concat(g.pieces) && NoStopAtBoundary(g.pieces, stops)
  }

  lemma SentTextIsPieces(g: Progress, sent: Progress, piece: string, stops: seq<string>)
    requires TextSoFar(g, stops)
    requires sent.text == g.text + piece && sent.pieces == g.pieces + [piece]
    requires MatchedStop(sent.text, stops).None?
    ensures TextSoFar(sent, stops)
  {
    ConcatSnoc(g.pieces, piece);
    NoStopSnoc(g.pieces, piece, stops);
  }

  lemma StoppedTextIsPieces(g: Progress, o: Outcome, piece: string, stops: seq<string>)
    requires TextSoFar(g, stops)
    requires o.ending.StopMatched? && o.progress.pieces == g.pieces + [piece]
    requires var len := MatchedStop(g.text + piece, stops);
      len.Some? && o.progress.text == (g.text + piece)[..|g.text + piece| - len.value]
    ensures TextIsPieces(o, stops)
  {
    hide Concat, NoStopAtBoundary;
    ConcatSnoc(g.pieces, piece);
    assert o.progress.pieces[..|g.pieces|] == g.pieces;
    var text := g.text + piece;
    var cut := |text| - MatchedStop(text, stops).value;
    assert o.progress.text == text[..cut];
  }

  lemma RoundTextIsPieces(kv: Cache, g: Progress, stops: seq<string>, m: Model, h: Host)
    requires TextSoFar(g, stops)
    ensures match GenerateRound(kv, g, stops, m, h)
      case Last(o) => TextIsPieces(o, stops)
      case Next(_, g') => TextSoFar(g', stops)
  {
    hide NoStopAtBoundary, Concat, MatchedStop;
    var tokens := g.tokens + [m.sample(kv, g.tokens)];
    var r := GenerateRound(kv, g, stops, m, h);
    if m.piece(tokens).Some? {
      var piece := m.piece(tokens).value;
      if MatchedStop(g.text + piece, stops).None? {
        var sent := Progress(g.n, g.text + piece, tokens, g.pieces + [piece]);
        SentTextIsPieces(g, sent, piece, stops);
      } else if r.Last? && r.outcome.ending.StopMatched? {
        StoppedTextIsPieces(g, r.outcome, piece, stops);
      }
    }
  }

  lemma {:induction false} GeneratedTextIsPieces(kv: Cache, budget: nat, g: Progress, stops: seq<string>, m: Model,
                                                 h: Host)
    requires TextSoFar(g, stops)
    ensures TextIsPieces(Generate(kv, budget, g, stops, m, h), stops)
    decreases budget
  {
    if budget > 0 {
      RoundTextIsPieces(kv, g, stops, m, h);
      var r := GenerateRound(kv, g, stops, m, h);
      if r.Next? {
        GeneratedTextIsPieces(r.kv, budget - 1, r.progress, stops, m, h);
      }
    }
  }

  /** The tokens whose cells are in the cache when the loop ends normally: all but
      the one that completed a stop string. */
  function Decoded(o: Outcome): seq<Token> {
    var tokens := o.progress.tokens;
    if o.ending.StopMatched? && tokens != [] then tokens[..|tokens| - 1] else tokens
  }

  /** The tokens reported stay within the budget, and differ from the tokens
      sampled by at most the last one.  When the loop ended normally they agree,
      and the cache is the starting one with the decoded tokens on top. */
  predicate WithinBounds(o: Outcome, kv: Cache, budget: nat, g: Progress) {
    var end := o.progress;
    && g.n <= end.n <= g.n + budget
    && g.tokens <= end.tokens
    && |g.tokens| + (end.n - g.n) <= |end.tokens| <= |g.tokens| + (end.n - g.n) + 1
    && (o.ending.Finished? || o.ending.StopMatched? ==>
          && |end.tokens| == |g.tokens| + (end.n - g.n)
          && g.tokens <= Decoded(o)
          && o.kv == DecodeTokens(kv, Decoded(o)[|g.tokens|..]))
  }

  lemma {:induction false} GenerateBounds(kv: Cache, budget: nat, g: Progress, stops: seq<string>, m: Model, h: Host)
    ensures WithinBounds(Generate(kv, budget, g, stops, m, h), kv, budget, g)
    decreases budget
  {
    if budget > 0 {
      var r := GenerateRound(kv, g, stops, m, h);
      if r.Next? {
        GenerateBounds(r.kv, budget - 1, r.progress, stops, m, h);
        BoundsStep(Generate(kv, budget, g, stops, m, h), kv, budget, g, m.sample(kv, g.tokens), r.progress);
      }
    }
  }

  lemma BoundsStep(o: Outcome, kv: Cache, budget: nat, g: Progress, token: Token, g': Progress)
    requires budget > 0 && g'.n == g.n + 1 && g'.tokens == g.tokens + [token]
    requires WithinBounds(o, kv + [Cell(kv, Tok(token))], budget - 1, g')
    ensures WithinBounds(o, kv, budget, g)
  {
    if o.ending.Finished? || o.ending.StopMatched? {
      var rest := Decoded(o)[|g'.tokens|..];
      assert g'.tokens[|g.tokens|] == token;
      assert Decoded(o)[|g.tokens|..] == [token] + rest;
      assert [token][..0] == [];
      assert DecodeTokens(kv, [token]) == kv + [Cell(kv, Tok(token))];
      DecodeAppend(kv, [token], rest);
    }
  }

  // ---- What is generated ----

  /** Every token is the sampler's choice on the cache of the prompt and exactly the
      tokens before it. */
  predicate Sampled(prompt: Cache, tokens: seq<Token>, m: Model) {
    forall i :: 0 <= i < |tokens| ==> tokens[i] == m.sample(DecodeTokens(prompt, tokens[..i]), tokens[..i])
  }

  /** Every token but the end token is rendered, each to its own piece. */
  predicate Rendered(tokens: seq<Token>, pieces: seq<string>, m: Model) {
    && |pieces| == |tokens|
    && forall i :: 0 <= i < |pieces| ==> !m.endOfGeneration(tokens[i]) && m.piece(tokens[..i + 1]) == Some(pieces[i])
  }

  predicate GeneratedSoFar(prompt: Cache, kv: Cache, g: Progress, m: Model) {
    && kv == DecodeTokens(prompt, g.tokens)
    && g.n == |g.tokens|
    && Sampled(prompt, g.tokens, m)
    && Rendered(g.tokens, g.pieces, m)
  }

  /** The loop ends by itself only when the budget is used up or the sampler's next
      choice is an end token. */
  predicate EndedRightly(prompt: Cache, o: Outcome, budget: int, m: Model) {
    var g := o.progress;
    o.ending.Finished? ==> g.n == budget || m.endOfGeneration(m.sample(DecodeTokens(prompt, g.tokens), g.tokens))
  }

  lemma SampledSnoc(prompt: Cache, tokens: seq<Token>, token: Token, m: Model)
    requires Sampled(prompt, tokens, m) && token == m.sample(DecodeTokens(prompt, tokens), tokens)
    ensures Sampled(prompt, tokens + [token], m)
  {
    hide DecodeTokens;
    var all := tokens + [token];
    forall i | 0 <= i < |all| ensures all[i] == m.sample(DecodeTokens(prompt, all[..i]), all[..i]) {
      assert all[..i] == tokens[..i];
      if i == |tokens| {
        assert tokens[..i] == tokens;
      }
    }
  }

  lemma RenderedSnoc(tokens: seq<Token>, pieces: seq<string>, token: Token, piece: string, m: Model)
    requires Rendered(tokens, pieces, m)
    requires !m.endOfGeneration(token) && m.piece(tokens + [token]) == Some(piece)
    ensures Rendered(tokens + [token], pieces + [piece], m)
  {
    var all := tokens + [token];
    forall i | 0 <= i < |all|
      ensures !m.endOfGeneration(all[i]) && m.piece(all[..i + 1]) == Some((pieces + [piece])[i])
    {
      if i < |tokens| {
        assert all[..i + 1] == tokens[..i + 1];
      } else {
        assert all[..i + 1] == all;
      }
    }
  }

  lemma RoundGenerates(prompt: Cache, kv: Cache, g: Progress, total: nat, stops: seq<string>, m: Model, h: Host)
    requires GeneratedSoFar(prompt, kv, g, m)
    ensures match GenerateRound(kv, g, stops, m, h)
      case Last(o) =>
        && Sampled(prompt, o.progress.tokens, m) && Rendered(o.progress.tokens, o.progress.pieces, m)
        && EndedRightly(prompt, o, total, m)
      case Next(kv', g') => GeneratedSoFar(prompt, kv', g', m)
  {
    hide Sampled, Rendered, DecodeTokens;
    var token := m.sample(kv, g.tokens);
    SampledSnoc(prompt, g.tokens, token, m);
    DecodeSnoc(prompt, g.tokens, token);
    var piece := m.piece(g.tokens + [token]);
    if !m.endOfGeneration(token) && piece.Some? {
      RenderedSnoc(g.tokens, g.pieces, token, piece.value, m);
    }
  }

  lemma DecodeSnoc(kv: Cache, tokens: seq<Token>, token: Token)
    ensures var before := DecodeTokens(kv, tokens);
      DecodeTokens(kv, tokens + [token]) == before + [Cell(before, Tok(token))]
  {
    assert (tokens + [token])[..|tokens|] == tokens;
  }

  /** The reply is the model's own: from the prompt's cache alone, each token is
      sampled after the ones before it, each piece renders its token, and the loop
      ends where an end token, the budget, a stop string or the host says so. */
  lemma {:induction false} GenerationIsAutoregressive(prompt: Cache, kv: Cache, budget: nat, g: Progress,
                                                      stops: seq<string>, m: Model, h: Host)
    requires GeneratedSoFar(prompt, kv, g, m)
    ensures var o := Generate(kv, budget, g, stops, m, h);
      && Sampled(prompt, o.progress.tokens, m)
      && Rendered(o.progress.tokens, o.progress.pieces, m)
      && EndedRightly(prompt, o, g.n + budget, m)
    decreases budget
  {
    hide GenerateRound, Sampled, Rendered, DecodeTokens;
    if budget > 0 {
      RoundGenerates(prompt, kv, g, g.n + budget, stops, m, h);
      var r := GenerateRound(kv, g, stops, m, h);
      if r.Next? {
        GenerationIsAutoregressive(prompt, r.kv, budget - 1, r.progress, stops, m, h);
      }
    }
  }

  /** In the first `n` rounds nobody cancelled, the sink took every piece, and every
      decode completed. */
  predicate Undisturbed(pieces: seq<string>, n: nat, h: Host)
    requires n <= |pieces|
  {
    forall k :: 0 <= k < n ==> Untouched(pieces, k, h)
  }

  /** The loop outlives no disturbance, and is cut off only by one. */
  predicate HeedsHost(o: Outcome, h: Host) {
    var n, pieces := o.progress.n, o.progress.pieces;
    if o.ending.StopMatched? then
      0 < n == |pieces| && Undisturbed(pieces, n - 1, h) && !h.cancelled(n - 1)
    else
      && n <= |pieces| <= n + 1 && Undisturbed(pieces, n, h)
      && (o.ending.Finished? ==> |pieces| == n)
      && (o.ending.Errored? ==> |pieces| == n || (h.decodes(n).Failed? && !h.decodes(n).cancelSeen))
      && (o.ending.Interrupted? ==>
            || (|pieces| == n && h.cancelled(n))
            || (|pieces| == n + 1 && (h.sinkBreaks(pieces) || (h.decodes(n).Failed? && h.decodes(n).cancelSeen))))
  }

  predicate Untouched(pieces: seq<string>, k: nat, h: Host)
    requires k < |pieces|
  {
    !h.cancelled(k) && !h.sinkBreaks(pieces[..k + 1]) && h.decodes(k).Completed?
  }

  lemma UndisturbedSnoc(pieces: seq<string>, piece: string, h: Host)
    requires Undisturbed(pieces, |pieces|, h)
    ensures Undisturbed(pieces + [piece], |pieces|, h)
    ensures !h.cancelled(|pieces|) && !h.sinkBreaks(pieces + [piece]) && h.decodes(|pieces|).Completed? ==>
      Undisturbed(pieces + [piece], |pieces| + 1, h)
  {
    var all := pieces + [piece];
    assert all[..|all|] == all;
    forall k | 0 <= k < |pieces| ensures Untouched(all, k, h) {
      assert Untouched(pieces, k, h);
      assert all[..k + 1] == pieces[..k + 1];
    }
  }

  lemma RoundHeedsHost(kv: Cache, g: Progress, stops: seq<string>, m: Model, h: Host)
    requires g.n == |g.pieces| && Undisturbed(g.pieces, g.n, h)
    ensures match GenerateRound(kv, g, stops, m, h)
      case Last(o) => HeedsHost(o, h)
      case Next(_, g') => g'.n == |g'.pieces| && Undisturbed(g'.pieces, g'.n, h)
  {
    hide Undisturbed;
    var piece := m.piece(g.tokens + [m.sample(kv, g.tokens)]);
    if piece.Some? {
      UndisturbedSnoc(g.pieces, piece.value, h);
    }
  }

  /** A cancel, a sink that breaks or a failed decode ends the loop in the very round
      it is met, and nothing else counts as an interruption; a stop string matched in
      that round comes first. */
  lemma {:induction false} GenerationHeedsHost(kv: Cache, budget: nat, g: Progress, stops: seq<string>, m: Model,
                                               h: Host)
    requires g.n == |g.pieces| && Undisturbed(g.pieces, g.n, h)
    ensures HeedsHost(Generate(kv, budget, g, stops, m, h), h)
    decreases budget
  {
    hide GenerateRound, Undisturbed;
    if budget > 0 {
      RoundHeedsHost(kv, g, stops, m, h);
      var r := GenerateRound(kv, g, stops, m, h);
      if r.Next? {
        GenerationHeedsHost(r.kv, budget - 1, r.progress, stops, m, h);
      }
    }
  }

  // ---- When the loop ends by itself ----

  /** The text sent ends with a stop string. */
  ghost predicate EndsInStop(pieces: seq<string>, stops: seq<string>) {
    exists x :: x in stops && x != "" && EndsWith(Concat(pieces), x)
  }

  /** Either the pieces sent end with a stop string, or nothing disturbed any of their
      rounds and then the budget was used up, or - with no cancel waiting - the sampler
      chose an end token. */
  ghost predicate EndsByItself(prompt: Cache, o: Outcome, budget: nat, stops: seq<string>, m: Model, h: Host) {
    var pieces, tokens := o.progress.pieces, o.progress.tokens;
    || EndsInStop(pieces, stops)
    || (&& Undisturbed(pieces, |pieces|, h)
        && (|pieces| == budget
            || (!h.cancelled(|pieces|) && m.endOfGeneration(m.sample(DecodeTokens(prompt, tokens), tokens)))))
  }

  /** Ended at the end token, the cap or a stop string. */
  predicate Normal(o: Outcome) {
    o.ending.Finished? || o.ending.StopMatched?
  }

  /** Loop invariant: everything sent so far was decoded, undisturbed, and no stop
      string was met. */
  predicate Smooth(prompt: Cache, kv: Cache, g: Progress, stops: seq<string>, m: Model, h: Host) {
    && GeneratedSoFar(prompt, kv, g, m) && TextSoFar(g, stops)
    && |g.pieces| == g.n && Undisturbed(g.pieces, g.n, h)
  }

  lemma SmoothHasNoStop(prompt: Cache, kv: Cache, g: Progress, stops: seq<string>, m: Model, h: Host)
    requires Smooth(prompt, kv, g, stops, m, h)
    ensures !EndsInStop(g.pieces, stops)
  {
    assert g.pieces[..|g.pieces|] == g.pieces;
  }

  lemma SentIsDisturbed(g: Progress, piece: string, h: Host)
    requires h.sinkBreaks(g.pieces + [piece]) || h.decodes(|g.pieces|).Failed?
    ensures !Undisturbed(g.pieces + [piece], |g.pieces| + 1, h)
  {
    var all := g.pieces + [piece];
    assert all[..|all|] == all;
    assert !Untouched(all, |g.pieces|, h);
  }

  lemma StopIsEnd(g: Progress, piece: string, stops: seq<string>)
    requires TextSoFar(g, stops)
    ensures EndsInStop(g.pieces + [piece], stops) <==> MatchedStop(g.text + piece, stops).Some?
  {
    ConcatSnoc(g.pieces, piece);
    var text := g.text + piece;
    var r := MatchedStop(text, stops);
    if r.Some? {
      assert EndsWith(text, text[|text| - r.value..]);
    }
  }

  lemma RoundEndsExactly(prompt: Cache, kv: Cache, g: Progress, total: nat, stops: seq<string>, m: Model, h: Host)
    requires Smooth(prompt, kv, g, stops, m, h) && g.n < total
    ensures match GenerateRound(kv, g, stops, m, h)
      case Last(o) => Normal(o) <==> EndsByItself(prompt, o, total, stops, m, h)
      case Next(kv', g') => Smooth(prompt, kv', g', stops, m, h)
  {
    hide GeneratedSoFar, TextSoFar, Undisturbed, EndsInStop, DecodeTokens, MatchedStop, Concat;
    SmoothHasNoStop(prompt, kv, g, stops, m, h);
    SmoothCache(prompt, kv, g, m);
    RoundGenerates(prompt, kv, g, total, stops, m, h);
    RoundTextIsPieces(kv, g, stops, m, h);
    RoundHeedsHost(kv, g, stops, m, h);
    var piece := m.piece(g.tokens + [m.sample(kv, g.tokens)]);
    if piece.Some? {
      StopIsEnd(g, piece.value, stops);
      if h.sinkBreaks(g.pieces + [piece.value]) || h.decodes(g.n).Failed? {
        SentIsDisturbed(g, piece.value, h);
      }
    }
  }

  lemma SmoothCache(prompt: Cache, kv: Cache, g: Progress, m: Model)
    requires GeneratedSoFar(prompt, kv, g, m)
    ensures kv == DecodeTokens(prompt, g.tokens)
  {
  }

  /** The loop ends normally exactly when what it sent ends with a stop string, or
      nothing disturbed it up to the cap or an end token.  So a stop string on the
      piece at which the sink breaks still counts, and nothing else survives a
      disturbance. */
  lemma {:induction false} GenerationEndsExactly(prompt: Cache, kv: Cache, budget: nat, g: Progress,
                                                 stops: seq<string>, m: Model, h: Host)
    requires Smooth(prompt, kv, g, stops, m, h)
    ensures var o := Generate(kv, budget, g, stops, m, h);
      Normal(o) <==> EndsByItself(prompt, o, g.n + budget, stops, m, h)
    decreases budget
  {
    hide GenerateRound, GeneratedSoFar, TextSoFar, EndsInStop, DecodeTokens;
    if budget > 0 {
      RoundEndsExactly(prompt, kv, g, g.n + budget, stops, m, h);
      var r := GenerateRound(kv, g, stops, m, h);
      if r.Next? {
        GenerationEndsExactly(prompt, r.kv, budget - 1, r.progress, stops, m, h);
      }
    }
  }

  lemma StartIsSmooth(prompt: Cache, stops: seq<string>, m: Model, h: Host)
    ensures Smooth(prompt, prompt, START, stops, m, h)
  {
  }

  // ---- When the loop errs, and what it counts ----

  /** Nothing sent ends in a stop string, and either the next token, not an end token,
      could not be rendered, or the decode after the last piece failed by itself. */
  ghost predicate Errs(prompt: Cache, o: Outcome, budget: nat, stops: seq<string>, m: Model, h: Host) {
    var pieces, tokens := o.progress.pieces, o.progress.tokens;
    var n, next := |pieces|, m.sample(DecodeTokens(prompt, tokens), tokens);
    && !EndsInStop(pieces, stops)
    && (|| (&& Undisturbed(pieces, n, h) && n < budget && !h.cancelled(n)
            && !m.endOfGeneration(next) && m.piece(tokens + [next]).None?)
        || (n > 0 && !h.sinkBreaks(pieces) && h.decodes(n - 1).Failed? && !h.decodes(n - 1).cancelSeen))
  }

  lemma SentErrsExactly(g: Progress, piece: string, h: Host)
    requires |g.pieces| == g.n && Undisturbed(g.pieces, g.n, h)
    ensures g.n > 0 ==> h.decodes(g.n - 1).Completed?
    ensures h.decodes(g.n).Failed? ==> !Undisturbed(g.pieces + [piece], g.n + 1, h)
  {
    if g.n > 0 {
      assert Untouched(g.pieces, g.n - 1, h);
    }
    if h.decodes(g.n).Failed? {
      SentIsDisturbed(g, piece, h);
    }
  }

  lemma RoundErrsExactly(prompt: Cache, kv: Cache, g: Progress, total: nat, stops: seq<string>, m: Model, h: Host)
    requires Smooth(prompt, kv, g, stops, m, h) && g.n < total
    ensures match GenerateRound(kv, g, stops, m, h)
      case Last(o) => o.ending.Errored? <==> Errs(prompt, o, total, stops, m, h)
      case Next(_, _) => true
  {
    hide GeneratedSoFar, TextSoFar, Undisturbed, EndsInStop, DecodeTokens, MatchedStop, Concat;
    SmoothHasNoStop(prompt, kv, g, stops, m, h);
    SmoothCache(prompt, kv, g, m);
    var piece := m.piece(g.tokens + [m.sample(kv, g.tokens)]);
    SentErrsExactly(g, if piece.Some? then piece.value else "", h);
    if piece.Some? {
      StopIsEnd(g, piece.value, stops);
      if h.sinkBreaks(g.pieces + [piece.value]) {
        SentIsDisturbed(g, piece.value, h);
      }
    }
  }

  /** A generation is an error exactly when a token could not be rendered or a decode
      failed with no cancel seen; being cut off is not an error. */
  lemma {:induction false} GenerationErrsExactly(prompt: Cache, kv: Cache, budget: nat, g: Progress,
                                                 stops: seq<string>, m: Model, h: Host)
    requires Smooth(prompt, kv, g, stops, m, h)
    ensures var o := Generate(kv, budget, g, stops, m, h);
      o.ending.Errored? <==> Errs(prompt, o, g.n + budget, stops, m, h)
    decreases budget
  {
    hide GenerateRound, GeneratedSoFar, TextSoFar, EndsInStop, DecodeTokens;
    if budget == 0 {
      SentErrsExactly(g, "", h);
    } else {
      RoundErrsExactly(prompt, kv, g, g.n + budget, stops, m, h);
      RoundEndsExactly(prompt, kv, g, g.n + budget, stops, m, h);
      var r := GenerateRound(kv, g, stops, m, h);
      if r.Next? {
        GenerationErrsExactly(prompt, r.kv, budget - 1, r.progress, stops, m, h);
      }
    }
  }

  /** The tokens counted are the pieces sent, less the last one when its round was cut
      off and it completed no stop string. */
  lemma CountExactly(kv: Cache, budget: nat, stops: seq<string>, m: Model, h: Host)
    ensures var o := Generate(kv, budget, START, stops, m, h); var pieces := o.progress.pieces;
      o.progress.n == if Undisturbed(pieces, |pieces|, h) || EndsInStop(pieces, stops) then |pieces| else |pieces| - 1
  {
    hide Generate, Undisturbed;
    var o := Generate(kv, budget, START, stops, m, h);
    var pieces := o.progress.pieces;
    StartIsSmooth(kv, stops, m, h);
    GeneratedTextIsPieces(kv, budget, START, stops, m, h);
    GenerationHeedsHost(kv, budget, START, stops, m, h);
    assert pieces[..|pieces|] == pieces;
    if o.ending.StopMatched? {
      StoppedEndsInStop(o, stops);
    } else {
      NoStopAtEnd(pieces, stops);
      if |pieces| == o.progress.n + 1 {
        LastIsDisturbed(pieces, h);
      }
    }
  }

  lemma StoppedEndsInStop(o: Outcome, stops: seq<string>)
    requires o.ending.StopMatched? && TextIsPieces(o, stops)
    ensures EndsInStop(o.progress.pieces, stops)
  {
    hide Concat;
    var all, text := Concat(o.progress.pieces), o.progress.text;
    assert EndsWith(all, all[|text|..]);
  }

  lemma NoStopAtEnd(pieces: seq<string>, stops: seq<string>)
    requires NoStopAtBoundary(pieces, stops)
    ensures !EndsInStop(pieces, stops)
  {
    assert pieces[..|pieces|] == pieces;
  }

  lemma LastIsDisturbed(pieces: seq<string>, h: Host)
    requires pieces != []
    requires h.sinkBreaks(pieces) || h.decodes(|pieces| - 1).Failed?
    ensures !Undisturbed(pieces, |pieces|, h)
  {
    assert pieces[..|pieces|] == pieces;
    assert !Untouched(pieces, |pieces| - 1, h);
  }

  // ---- Which stop string ----

  /** Stop string `k` is non-empty and ends the text, and none before it does. */
  predicate FirstMatch(text: string, stops: seq<string>, k: nat)
    requires k < |stops|
  {
    && stops[k] != "" && EndsWith(text, stops[k])
    && forall j :: 0 <= j < k ==> stops[j] == "" || !EndsWith(text, stops[j])
  }

  /** When several stop strings match, the first one listed is the one cut off. */
  lemma {:induction false} MatchedStopIsFirst(text: string, stops: seq<string>, k: nat)
    requires k < |stops| && FirstMatch(text, stops, k)
    ensures MatchedStop(text, stops) == Some(|stops[k]|)
  {
    hide EndsWith;
    if k > 0 {
      var rest := stops[1..];
      assert stops[0] == "" || !EndsWith(text, stops[0]);
      assert FirstMatch(text, rest, k - 1);
      MatchedStopIsFirst(text, rest, k - 1);
    }
  }
}
