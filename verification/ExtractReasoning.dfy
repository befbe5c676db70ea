/** The one-shot extraction used for non-streaming replies (wrapper.rs), and when
    it agrees with the streaming splitter. */
module ExtractReasoning {
  import opened Options
  import opened Search
  import opened ReasoningSplitter

  /** Unicode White_Space, what `trim` removes. */
  predicate IsWhitespace(c: char) {
    var n := c as int;
    || 9 <= n <= 13 || n == 0x20 || n == 0x85 || n == 0xA0 || n == 0x1680
    || 0x2000 <= n <= 0x200A || n == 0x2028 || n == 0x2029 || n == 0x202F
    || n == 0x205F || n == 0x3000
  }

  function TrimStart(s: string): string {
    if s != "" && IsWhitespace(s[0]) then TrimStart(s[1..]) else s
  }

  function TrimEnd(s: string): string {
    if s != "" && IsWhitespace(s[|s| - 1]) then TrimEnd(s[..|s| - 1]) else s
  }

  function Trim(s: string): string {
    TrimEnd(TrimStart(s))
  }

  predicate IsTrimmed(s: string) {
    s == "" || (!IsWhitespace(s[0]) && !IsWhitespace(s[|s| - 1]))
  }

  lemma {:induction false} TrimEndIsTrimmed(s: string)
    requires s == "" || !IsWhitespace(s[0])
    ensures IsTrimmed(TrimEnd(s))
  {
    if s != "" && IsWhitespace(s[|s| - 1]) {
      TrimEndIsTrimmed(s[..|s| - 1]);
    }
  }

  lemma {:induction false} TrimStartStarts(s: string)
    ensures TrimStart(s) == "" || !IsWhitespace(TrimStart(s)[0])
  {
    if s != "" && IsWhitespace(s[0]) {
      TrimStartStarts(s[1..]);
    }
  }

  lemma TrimIdempotent(s: string)
    ensures Trim(Trim(s)) == Trim(s)
  {
    TrimStartStarts(s);
    TrimEndIsTrimmed(TrimStart(s));
  }

  predicate AllWhitespace(s: string) {
    forall k :: 0 <= k < |s| ==> IsWhitespace(s[k])
  }

  /** `t` is `s` without its white space at the ends, and nothing else is gone. */
  ghost predicate IsTrimOf(t: string, s: string) {
    IsTrimmed(t) && exists i, j :: 0 <= i <= j <= |s| && t == s[i..j] && AllWhitespace(s[..i]) && AllWhitespace(s[j..])
  }

  lemma {:induction false} TrimStartCuts(s: string) returns (i: nat)
    ensures i <= |s| && TrimStart(s) == s[i..] && AllWhitespace(s[..i])
  {
    if s != "" && IsWhitespace(s[0]) {
      var k := TrimStartCuts(s[1..]);
      i := k + 1;
      assert s[1..][k..] == s[i..] && s[..i] == [s[0]] + s[1..][..k];
    } else {
      i := 0;
    }
  }

  lemma {:induction false} TrimEndCuts(s: string) returns (j: nat)
    ensures j <= |s| && TrimEnd(s) == s[..j] && AllWhitespace(s[j..])
  {
    if s != "" && IsWhitespace(s[|s| - 1]) {
      var front := s[..|s| - 1];
      j := TrimEndCuts(front);
      assert front[..j] == s[..j] && s[j..] == front[j..] + [s[|s| - 1]];
    } else {
      j := |s|;
    }
  }

  /** Trimming takes away white space at the ends and nothing else, all of it. */
  lemma TrimExact(s: string)
    ensures IsTrimOf(Trim(s), s)
  {
    hide TrimStart, TrimEnd;
    var i := TrimStartCuts(s);
    var rest := s[i..];
    var k := TrimEndCuts(rest);
    TrimStartStarts(s);
    TrimEndIsTrimmed(rest);
    assert rest[..k] == s[i..i + k] && rest[k..] == s[i + k..];
  }

  /** So the trimmed text is determined. */
  lemma TrimUnique(s: string, t: string)
    requires IsTrimOf(t, s)
    ensures t == Trim(s)
  {
    hide Trim, IsTrimmed, AllWhitespace;
    TrimExact(s);
    var i, j :| 0 <= i <= j <= |s| && t == s[i..j] && AllWhitespace(s[..i]) && AllWhitespace(s[j..]);
    var k, l :| 0 <= k <= l <= |s| && Trim(s) == s[k..l] && AllWhitespace(s[..k]) && AllWhitespace(s[l..]);
    OneCut(s, i, j, k, l);
  }

  lemma OneCut(s: string, i: nat, j: nat, k: nat, l: nat)
    requires i <= j <= |s| && k <= l <= |s| && IsTrimmed(s[i..j]) && IsTrimmed(s[k..l])
    requires AllWhitespace(s[..i]) && AllWhitespace(s[j..]) && AllWhitespace(s[..k]) && AllWhitespace(s[l..])
    ensures s[i..j] == s[k..l]
  {
    hide IsTrimmed, AllWhitespace;
    SameCut(s, i, j, k, l);
    SameCut(s, k, l, i, j);
    if i == j || k == l {
      assert s[i..j] == "" == s[k..l];
    }
  }

  /** Two trimmed cuts of the same text: neither starts later or ends earlier than the
      other, unless it is empty. */
  lemma SameCut(s: string, i: nat, j: nat, k: nat, l: nat)
    requires i <= j <= |s| && k <= l <= |s| && IsTrimmed(s[i..j])
    requires AllWhitespace(s[..k]) && AllWhitespace(s[l..])
    ensures i < j ==> k <= i && j <= l
  {
    if i < j {
      assert s[i..j][0] == s[i] && s[i..j][j - i - 1] == s[j - 1];
      WhiteAround(s, k, l, i);
      WhiteAround(s, k, l, j - 1);
    }
  }

  lemma WhiteAround(s: string, k: nat, l: nat, i: nat)
    requires k <= |s| && l <= |s| && i < |s| && AllWhitespace(s[..k]) && AllWhitespace(s[l..])
    ensures i < k || l <= i ==> IsWhitespace(s[i])
  {
    if i < k {
      assert s[..k][i] == s[i];
    }
    if l <= i {
      assert s[l..][i - l] == s[i];
    }
  }

  datatype Extracted = Extracted(text: string, reasoning: Option<string>)

  function Extract(output: string): Extracted {
    match Find(output, OPEN_TAG)
    case None => Extracted(output, None)
    case Some(start) =>
      var rest := output[start + |OPEN_TAG|..];
      match Find(rest, CLOSE_TAG)
      case Some(end) =>
        Extracted(Trim(output[..start] + rest[end + |CLOSE_TAG|..]), Some(Trim(rest[..end])))
      case None =>
        Extracted(Trim(output[..start]), if Trim(rest) == "" then None else Some(Trim(rest)))
  }

  /** What is extracted: text without a tag comes back untouched; with a closed block
      the block is the reasoning and what surrounds it the answer; with an unclosed one
      the rest is the reasoning, if anything is left of it - all without white space at
      the ends. */
  lemma ExtractExact(before: string, block: string, rest: string)
    ensures Find(before, OPEN_TAG).None? ==> Extract(before) == Extracted(before, None)
    ensures OpensAt(before, OPEN_TAG) && OpensAt(block, CLOSE_TAG) ==>
      var e := Extract(before + OPEN_TAG + (block + CLOSE_TAG + rest));
      IsTrimOf(e.text, before + rest) && e.reasoning.Some? && IsTrimOf(e.reasoning.value, block)
    ensures OpensAt(before, OPEN_TAG) && Find(block, CLOSE_TAG).None? ==>
      var e := Extract(before + OPEN_TAG + block);
      && IsTrimOf(e.text, before)
      && (e.reasoning.None? <==> AllWhitespace(block))
      && (e.reasoning.Some? ==> IsTrimOf(e.reasoning.value, block))
  {
    hide Find, Trim, OpensAt, IsTrimOf;
    TrimExact(before + rest);
    TrimExact(block);
    TrimExact(before);
    OnlyWhitespaceTrimsAway(block);
    if OpensAt(before, OPEN_TAG) {
      FindWhereOpened(before, OPEN_TAG, block + CLOSE_TAG + rest);
      FindWhereOpened(before, OPEN_TAG, block);
    }
    if OpensAt(block, CLOSE_TAG) {
      FindWhereOpened(block, CLOSE_TAG, rest);
    }
  }

  /** Every text with a tag has this shape. */
  lemma EveryTagOpens(s: string, tag: string)
    requires tag != "" && Find(s, tag).Some?
    ensures var k := Find(s, tag).value;
      s == s[..k] + tag + s[k + |tag|..] && OpensAt(s[..k], tag)
  {
    hide Find;
    FindIsFirst(s, tag);
    var k := Find(s, tag).value;
    assert s[k..k + |tag|] == tag;
    forall i | 0 <= i < k ensures !OccursAt(s[..k] + tag, tag, i) {
      assert (s[..k] + tag)[i..i + |tag|] == s[i..i + |tag|];
      assert !OccursAt(s, tag, i);
    }
  }

  /** No occurrence of the tag starts in `before` when the tag follows it. */
  predicate OpensAt(before: string, tag: string) {
    forall i :: 0 <= i < |before| ==> !OccursAt(before + tag, tag, i)
  }

  lemma FindWhereOpened(before: string, tag: string, rest: string)
    requires tag != "" && OpensAt(before, tag)
    ensures var s := before + tag + rest;
      Find(s, tag) == Some(|before|) && s[..|before|] == before && s[|before| + |tag|..] == rest
  {
    hide Find;
    var s := before + tag + rest;
    assert s[|before|..|before| + |tag|] == tag;
    assert OccursAt(s, tag, |before|);
    hide OccursAt;
    forall i | 0 <= i < |before| ensures !OccursAt(s, tag, i) {
      assert !OccursAt(before + tag, tag, i);
      OccursInside(before + tag, rest, tag, i);
    }
    FindUnique(s, tag, |before|);
  }

  lemma OnlyWhitespaceTrimsAway(s: string)
    ensures Trim(s) == "" <==> AllWhitespace(s)
  {
    hide Trim;
    TrimExact(s);
    var i, j :| 0 <= i <= j <= |s| && Trim(s) == s[i..j] && AllWhitespace(s[..i]) && AllWhitespace(s[j..]);
    if Trim(s) == "" {
      assert s == s[..i] + s[j..];
    } else {
      assert !IsWhitespace(s[i..j][0]);
      assert !IsWhitespace(s[i]);
    }
  }

  /** No second `<think>` after the first closed block. */
  predicate SingleBlock(output: string) {
    match Find(output, OPEN_TAG)
    case None => true
    case Some(start) =>
      var rest := output[start + |OPEN_TAG|..];
      match Find(rest, CLOSE_TAG)
      case None => true
      case Some(end) => Find(rest[end + |CLOSE_TAG|..], OPEN_TAG).None?
  }

  /** Same answer and same reasoning, up to white space at the ends. */
  predicate Agree(e: Extracted, p: Parts) {
    Trim(e.text) == Trim(p.content) && OrEmpty(e.reasoning) == Trim(p.reasoning)
  }

  // ---- Counting `<`, which trimming keeps and a consumed tag loses ----

  function Count(s: string): nat {
    if s == "" then 0 else (if s[0] == '<' then 1 else 0) + Count(s[1..])
  }

  lemma {:induction false} CountAppend(a: string, b: string)
    ensures Count(a + b) == Count(a) + Count(b)
  {
    if a == "" {
      assert a + b == b;
    } else {
      CountAppend(a[1..], b);
      assert (a + b)[1..] == a[1..] + b;
    }
  }

  lemma {:induction false} TrimStartKeepsCount(s: string)
    ensures Count(TrimStart(s)) == Count(s)
  {
    if s != "" && IsWhitespace(s[0]) {
      TrimStartKeepsCount(s[1..]);
    }
  }

  lemma {:induction false} TrimEndKeepsCount(s: string)
    ensures Count(TrimEnd(s)) == Count(s)
  {
    if s != "" && IsWhitespace(s[|s| - 1]) {
      var front, last := s[..|s| - 1], s[|s| - 1..];
      TrimEndKeepsCount(front);
      CountAppend(front, last);
      assert front + last == s;
    }
  }

  lemma TrimKeepsCount(s: string)
    ensures Count(Trim(s)) == Count(s)
  {
    TrimStartKeepsCount(s);
    TrimEndKeepsCount(TrimStart(s));
  }

  lemma TagCounts(m: Mode)
    ensures Count(Tag(m)) > 0
  {
    assert Tag(m)[0] == '<';
  }

  lemma {:induction false} SplitLosesTags(m: Mode, s: string)
    ensures Count(Split(m, s).content) <= Count(s)
    ensures Find(s, Tag(m)).Some? ==> Count(Split(m, s).content) < Count(s)
    decreases |s|
  {
    hide Tag, Find, Split, Count;
    SplitAtTag(m, s);
    match Find(s, Tag(m)) {
      case None =>
        CountEmpty();
      case Some(i) =>
        var rest := s[i + |Tag(m)|..];
        SplitLosesTags(Flip(m), rest);
        TagCounts(m);
        assert s == s[..i] + Tag(m) + rest;
        CountAppend(s[..i] + Tag(m), rest);
        CountAppend(s[..i], Tag(m));
        CountAppend(s[..i], Split(Flip(m), rest).content);
        assert "" + Split(Flip(m), rest).content == Split(Flip(m), rest).content;
    }
  }

  lemma CountEmpty()
    ensures Count("") == 0
  {
  }

  // ---- The comparison ----

  /** What the splitter makes of a text with a closed block. */
  lemma SplitClosedBlock(output: string, start: nat, end: nat)
    requires Find(output, OPEN_TAG) == Some(start)
    requires Find(output[start + |OPEN_TAG|..], CLOSE_TAG) == Some(end)
    ensures var rest := output[start + |OPEN_TAG|..]; var post := rest[end + |CLOSE_TAG|..];
      var q := Split(Outside, post);
      Split(Outside, output) == Parts(output[..start] + q.content, rest[..end] + q.reasoning)
  {
    hide Find, Split;
    SplitAtTag(Outside, output);
    var rest := output[start + |OPEN_TAG|..];
    SplitAtTag(InsideThink, rest);
    var q := Split(Outside, rest[end + |CLOSE_TAG|..]);
    assert Split(InsideThink, rest) == Join(Only(InsideThink, rest[..end]), q);
    assert "" + q.content == q.content;
    assert "" + (rest[..end] + q.reasoning) == rest[..end] + q.reasoning;
  }

  lemma SplitOpenBlock(output: string, start: nat)
    requires Find(output, OPEN_TAG) == Some(start)
    requires Find(output[start + |OPEN_TAG|..], CLOSE_TAG).None?
    ensures Split(Outside, output) == Parts(output[..start], output[start + |OPEN_TAG|..])
  {
    hide Find, Split;
    SplitAtTag(Outside, output);
    SplitAtTag(InsideThink, output[start + |OPEN_TAG|..]);
  }

  lemma EmptyTrims()
    ensures Trim("") == ""
  {
  }

  /** Streaming and one-shot extraction agree up to trimming if and only if the text
      holds a single block; an unclosed block is fine. */
  lemma StreamingAgreesExactly(output: string)
    ensures Agree(Extract(output), Split(Outside, output)) <==> SingleBlock(output)
  {
    hide Find, Split, Trim, Count;
    EmptyTrims();
    match Find(output, OPEN_TAG) {
      case None =>
        SplitAtTag(Outside, output);
      case Some(start) =>
        var pre, rest := output[..start], output[start + |OPEN_TAG|..];
        match Find(rest, CLOSE_TAG) {
          case None =>
            SplitOpenBlock(output, start);
            TrimIdempotent(pre);
          case Some(end) =>
            var post := rest[end + |CLOSE_TAG|..];
            SplitClosedBlock(output, start, end);
            SplitAtTag(Outside, post);
            TrimIdempotent(pre + post);
            if Find(post, OPEN_TAG).None? {
              assert rest[..end] + "" == rest[..end];
            } else {
              var q := Split(Outside, post);
              SplitLosesTags(Outside, post);
              CountAppend(pre, post);
              CountAppend(pre, q.content);
              TrimKeepsCount(pre + post);
              TrimKeepsCount(pre + q.content);
            }
        }
    }
  }

  // ---- Two blocks ----

  predicate NoTagStart(s: string) {
    forall i :: 0 <= i < |s| ==> s[i] != '<'
  }

  lemma NoOccurrence(s: string, tag: string, i: nat)
    requires tag != "" && (i < |s| ==> s[i] != tag[0])
    ensures !OccursAt(s, tag, i)
  {
    if i + |tag| <= |s| {
      assert s[i..i + |tag|][0] == s[i];
    }
  }

  /** A tag after text without `<` is found right there. */
  lemma FindTag(before: string, m: Mode, rest: string)
    requires NoTagStart(before)
    ensures var s := before + Tag(m) + rest;
      Find(s, Tag(m)) == Some(|before|) && s[..|before|] == before && s[|before| + |Tag(m)|..] == rest
  {
    var tag := Tag(m);
    assert tag[0] == '<';
    hide Tag, Find;
    forall i | 0 <= i < |before| ensures !OccursAt(before + tag, tag, i) {
      assert (before + tag)[i] == before[i];
      NoOccurrence(before + tag, tag, i);
    }
    FindWhereOpened(before, tag, rest);
  }

  lemma NoTagFound(s: string, m: Mode)
    requires NoTagStart(s)
    ensures Find(s, Tag(m)).None?
  {
    var tag := Tag(m);
    assert tag[0] == '<';
    hide Tag, Find;
    FindIsFirst(s, tag);
    forall i: nat ensures !OccursAt(s, tag, i) {
      NoOccurrence(s, tag, i);
    }
  }

  lemma SplitTag(before: string, m: Mode, rest: string)
    requires NoTagStart(before)
    ensures Split(m, before + Tag(m) + rest) == Join(Only(m, before), Split(Flip(m), rest))
  {
    hide Tag, Split, Find;
    FindTag(before, m, rest);
    SplitAtTag(m, before + Tag(m) + rest);
  }

  lemma SplitPlain(s: string, m: Mode)
    requires NoTagStart(s)
    ensures Split(m, s) == Only(m, s)
  {
    hide Tag, Split, Find;
    NoTagFound(s, m);
    SplitAtTag(m, s);
  }

  /** Text with two blocks. */
  function TwoBlocks(a: string, b: string, c: string, d: string): string {
    "" + OPEN_TAG + (a + CLOSE_TAG + (b + OPEN_TAG + (c + CLOSE_TAG + d)))
  }

  /** On every text with two blocks the two disagree: streaming takes both blocks for
      reasoning, the one-shot extraction leaves the second one in the answer. */
  lemma TwoBlocksDisagree(a: string, b: string, c: string, d: string)
    requires NoTagStart(a) && NoTagStart(b) && NoTagStart(c) && NoTagStart(d)
    ensures var text := TwoBlocks(a, b, c, d);
      && Split(Outside, text) == Parts(b + d, a + c)
      && Extract(text) == Extracted(Trim(b + OPEN_TAG + (c + CLOSE_TAG + d)), Some(Trim(a)))
      && !Agree(Extract(text), Split(Outside, text))
  {
    hide Find, Split, Trim;
    var inner := b + OPEN_TAG + (c + CLOSE_TAG + d);
    SplitTag("", Outside, a + CLOSE_TAG + inner);
    SplitTag(a, InsideThink, inner);
    SplitTag(b, Outside, c + CLOSE_TAG + d);
    SplitTag(c, InsideThink, d);
    SplitPlain(d, Outside);
    FourParts(a, b, c, d);
    FindTag("", Outside, a + CLOSE_TAG + inner);
    FindTag(a, InsideThink, inner);
    FindTag(b, Outside, c + CLOSE_TAG + d);
    assert "" + inner == inner;
    StreamingAgreesExactly(TwoBlocks(a, b, c, d));
  }

  lemma FourParts(a: string, b: string, c: string, d: string)
    ensures Join(Only(Outside, ""),
                 Join(Only(InsideThink, a), Join(Only(Outside, b), Join(Only(InsideThink, c), Only(Outside, d)))))
         == Parts(b + d, a + c)
  {
    assert "" + d == d && "" + (b + d) == b + d && c + "" == c && "" + c == c && "" + (a + c) == a + c;
  }

  /** One such text, spelled out. */
  lemma TwoBlocksExample()
    ensures var text := "<think>a</think>b<think>c</think>d";
      && Split(Outside, text) == Parts("bd", "ac")
      && Extract(text) == Extracted("b<think>c</think>d", Some("a"))
      && !Agree(Extract(text), Split(Outside, text))
  {
    hide Find, Split, Agree, Extract, Trim, TwoBlocks;
    TwoBlocksDisagree("a", "b", "c", "d");
    SpelledOut();
    NothingToTrim("a");
    NothingToTrim("b<think>c</think>d");
  }

  lemma SpelledOut()
    ensures "b" + OPEN_TAG + ("c" + CLOSE_TAG + "d") == "b<think>c</think>d"
    ensures TwoBlocks("a", "b", "c", "d") == "<think>a</think>b<think>c</think>d"
    ensures "b" + "d" == "bd" && "a" + "c" == "ac"
  {
    SpelledC();
    SpelledB();
    SpelledA();
    SpelledText();
  }

  lemma SpelledC()
    ensures "c" + CLOSE_TAG + "d" == "c</think>d"
  {
  }

  lemma SpelledB()
    ensures "b" + OPEN_TAG + "c</think>d" == "b<think>c</think>d"
  {
  }

  lemma SpelledA()
    ensures "a" + CLOSE_TAG + "b<think>c</think>d" == "a</think>b<think>c</think>d"
  {
  }

  lemma SpelledText()
    ensures "" + OPEN_TAG + "a</think>b<think>c</think>d" == "<think>a</think>b<think>c</think>d"
  {
  }

  lemma NothingToTrim(s: string)
    requires s != "" && !IsWhitespace(s[0]) && !IsWhitespace(s[|s| - 1])
    ensures Trim(s) == s
  {
  }
}
