/** Incremental splitting of generated text at `<think>` and `</think>`
    (reasoning_splitter.rs), against a one-shot split of the whole text. */
module ReasoningSplitter {
  import opened Options
  import opened Text
  import opened Search

  const OPEN_TAG := "<think>"
  const CLOSE_TAG := "</think>"

  datatype Mode = Outside | InsideThink

  /** The tag that ends a mode. */
  function Tag(m: Mode): (tag: string)
    ensures tag != ""
  {
    match m
    case Outside => OPEN_TAG
    case InsideThink => CLOSE_TAG
  }

  function Flip(m: Mode): Mode {
    if m.Outside? then InsideThink else Outside
  }

  /** Text routed to the answer and to the reasoning. */
  datatype Parts = Parts(content: string, reasoning: string)

  function Only(m: Mode, s: string): Parts {
    if m.Outside? then Parts(s, "") else Parts("", s)
  }

  function Join(a: Parts, b: Parts): Parts {
    Parts(a.content + b.content, a.reasoning + b.reasoning)
  }

  // ---- The reference: one pass over the whole text ----

  /** Character by character: a tag where the mode awaits one switches the mode,
      any other character belongs to the current mode. */
  function Split(m: Mode, s: string): Parts
    decreases |s|
  {
    if s == "" then Parts("", "")
    else if Tag(m) <= s then Split(Flip(m), s[|Tag(m)|..])
    else Join(Only(m, s[..1]), Split(m, s[1..]))
  }

  lemma JoinAssoc(a: Parts, b: Parts, c: Parts)
    ensures Join(Join(a, b), c) == Join(a, Join(b, c))
  {
  }

  lemma SplitStep(m: Mode, s: string)
    requires s != ""
    ensures Split(m, s) ==
      if Tag(m) <= s then Split(Flip(m), s[|Tag(m)|..]) else Join(Only(m, s[..1]), Split(m, s[1..]))
  {
    hide Tag;
  }

  lemma {:induction false} SplitAtTag(m: Mode, s: string)
    ensures match Find(s, Tag(m))
      case None => Split(m, s) == Only(m, s)
      case Some(i) => Split(m, s) == Join(Only(m, s[..i]), Split(Flip(m), s[i + |Tag(m)|..]))
    decreases |s|
  {
    hide Tag, Split, Find, Join, Only;
    if s == "" {
      EmptyHasNoTag(m);
    } else {
      var tag, head, rest := Tag(m), s[..1], s[1..];
      SplitStep(m, s);
      FindStep(s, tag);
      if tag <= s {
        assert s[..0] == "" && s[0 + |tag|..] == s[|tag|..];
        JoinNothing(m, Split(Flip(m), s[|tag|..]));
      } else {
        SplitAtTag(m, rest);
        assert head + rest == s;
        match Find(rest, tag) {
          case None =>
            JoinOnly(m, head, rest);
          case Some(i) =>
            assert head + rest[..i] == s[..i + 1];
            assert rest[i + |tag|..] == s[i + 1 + |tag|..];
            JoinOnly(m, head, rest[..i]);
            JoinAssoc(Only(m, head), Only(m, rest[..i]), Split(Flip(m), rest[i + |tag|..]));
        }
      }
    }
  }

  lemma JoinOnly(m: Mode, a: string, b: string)
    ensures Join(Only(m, a), Only(m, b)) == Only(m, a + b)
  {
  }

  lemma JoinNothing(m: Mode, p: Parts)
    ensures Join(Only(m, ""), p) == p
  {
    assert "" + p.content == p.content && "" + p.reasoning == p.reasoning;
  }

  lemma EmptyHasNoTag(m: Mode)
    ensures Find("", Tag(m)).None? && Split(m, "") == Only(m, "")
  {
  }

  // ---- What feeding text does ----

  /** Smallest `i` such that `s[i..]` could still be the start of `tag`. */
  function HoldFrom(s: string, tag: string): (i: nat)
    ensures i <= |s|
    ensures s[i..] < tag || s[i..] == ""
  {
    if s == "" then 0
    else if s < tag then 0
    else HoldFrom(s[1..], tag) + 1
  }

  lemma {:induction false} HoldFromIsLeast(s: string, tag: string, i: nat)
    requires i < HoldFrom(s, tag)
    ensures !(s[i..] < tag)
  {
    if s != "" && !(s < tag) && i > 0 {
      HoldFromIsLeast(s[1..], tag, i - 1);
      assert s[1..][i - 1..] == s[i..];
    }
  }

  datatype Drained = Drained(parts: Parts, mode: Mode, buffer: string)

  function After(p: Parts, d: Drained): Drained {
    d.(parts := Join(p, d.parts))
  }

  /** Result of working through `work`: text released, mode reached, text held. */
  function Drain(m: Mode, work: string): (d: Drained)
    decreases |work|
  {
    match Find(work, Tag(m))
    case Some(i) => After(Only(m, work[..i]), Drain(Flip(m), work[i + |Tag(m)|..]))
    case None =>
      var k := HoldFrom(work, Tag(m));
      Drained(Only(m, work[..k]), m, work[k..])
  }

  lemma DrainFound(m: Mode, s: string)
    requires Find(s, Tag(m)).Some?
    ensures var i := Find(s, Tag(m)).value;
      Drain(m, s) == After(Only(m, s[..i]), Drain(Flip(m), s[i + |Tag(m)|..]))
  {
    hide Tag, Find, HoldFrom;
  }

  lemma DrainHeld(m: Mode, s: string)
    requires Find(s, Tag(m)).None?
    ensures var k := HoldFrom(s, Tag(m));
      Drain(m, s) == Drained(Only(m, s[..k]), m, s[k..])
  {
    hide Tag, Find, HoldFrom;
  }

  lemma OccursInside(a: string, b: string, tag: string, i: nat)
    requires i + |tag| <= |a|
    ensures OccursAt(a + b, tag, i) <==> OccursAt(a, tag, i)
  {
    assert a[i..i + |tag|] == (a + b)[i..i + |tag|];
  }

  lemma OverhangIsPrefix(a: string, b: string, tag: string, i: nat)
    requires OccursAt(a + b, tag, i) && i <= |a| < i + |tag|
    ensures a[i..] < tag
  {
    assert a[i..] == (a + b)[i..i + |tag|][..|a| - i] == tag[..|a| - i];
  }

  /** Without a tag in `a`, no occurrence in `a + b` starts before the held part. */
  lemma NoneBeforeHold(a: string, b: string, tag: string, i: nat)
    requires tag != "" && !OccursAt(a, tag, i) && i < HoldFrom(a, tag)
    ensures !OccursAt(a + b, tag, i)
  {
    hide OccursAt;
    if i + |tag| <= |a| {
      OccursInside(a, b, tag, i);
    } else {
      HoldFromIsLeast(a, tag, i);
      if OccursAt(a + b, tag, i) {
        OverhangIsPrefix(a, b, tag, i);
      }
    }
  }

  lemma OccursAfterHold(a: string, b: string, tag: string, i: nat)
    requires tag != "" && Find(a, tag).None?
    ensures var k := HoldFrom(a, tag);
      OccursAt(a + b, tag, i) <==> k <= i && OccursAt(a[k..] + b, tag, i - k)
  {
    hide Find, HoldFrom, OccursAt;
    var k := HoldFrom(a, tag);
    if i < k {
      FindIsFirst(a, tag);
      NoneBeforeHold(a, b, tag, i);
    } else {
      assert a[k..] + b == (a + b)[k..];
      OccursShifted(a + b, a[k..] + b, k, tag, i);
    }
  }

  /** So the first occurrence in `a + b` is the first one from the held part on. */
  lemma FindAfterHold(a: string, b: string, tag: string)
    requires tag != "" && Find(a, tag).None?
    ensures var k := HoldFrom(a, tag);
      Find(a + b, tag) == match Find(a[k..] + b, tag) { case None => None case Some(i) => Some(k + i) }
  {
    hide Find, HoldFrom, OccursAt;
    var k := HoldFrom(a, tag);
    var ab, rest := a + b, a[k..] + b;
    FindIsFirst(ab, tag);
    FindIsFirst(rest, tag);
    forall i: nat ensures OccursAt(ab, tag, i) <==> k <= i && OccursAt(rest, tag, i - k) {
      OccursAfterHold(a, b, tag, i);
    }
    var r := Find(rest, tag);
    if r.Some? {
      assert OccursAt(ab, tag, k + r.value);
      FindUnique(ab, tag, k + r.value);
    }
  }

  lemma PrefixOfPrefix(a: string, b: string, tag: string)
    ensures a + b < tag ==> a < tag
  {
    if a + b < tag {
      assert a == (a + b)[..|a|] == tag[..|a|];
    }
  }

  lemma {:induction false} HoldFromAt(s: string, tag: string, k: nat)
    requires k <= |s|
    requires s[k..] < tag || s[k..] == ""
    requires forall i :: 0 <= i < k ==> !(s[i..] < tag)
    ensures HoldFrom(s, tag) == k
  {
    if k > 0 {
      assert s[0..] == s;
      assert s[1..][k - 1..] == s[k..];
      forall i | 0 <= i < k - 1 ensures !(s[1..][i..] < tag) {
        assert s[1..][i..] == s[i + 1..];
      }
      HoldFromAt(s[1..], tag, k - 1);
    }
  }

  lemma SliceJoin(a: string, b: string, k: nat, h: nat)
    requires k <= |a| && k + h <= |a| + |b|
    ensures (a + b)[..k + h] == a[..k] + (a[k..] + b)[..h]
    ensures (a + b)[k + h..] == (a[k..] + b)[h..]
  {
  }

  lemma HoldAfterHold(a: string, b: string, tag: string)
    requires tag != ""
    ensures var k := HoldFrom(a, tag);
      HoldFrom(a + b, tag) == k + HoldFrom(a[k..] + b, tag)
  {
    hide HoldFrom;
    var k := HoldFrom(a, tag);
    var rest := a[k..] + b;
    var h := HoldFrom(rest, tag);
    SliceJoin(a, b, k, h);
    forall i | 0 <= i < k + h ensures !((a + b)[i..] < tag) {
      NoPrefixBeforeHold(a, b, tag, i);
    }
    HoldFromAt(a + b, tag, k + h);
  }

  lemma NoPrefixBeforeHold(a: string, b: string, tag: string, i: nat)
    requires var k := HoldFrom(a, tag); i < k + HoldFrom(a[k..] + b, tag)
    ensures !((a + b)[i..] < tag)
  {
    hide HoldFrom;
    var k := HoldFrom(a, tag);
    if i < k {
      HoldFromIsLeast(a, tag, i);
      assert (a + b)[i..] == a[i..] + b;
      PrefixOfPrefix(a[i..], b, tag);
    } else {
      HoldFromIsLeast(a[k..] + b, tag, i - k);
      SliceJoin(a, b, k, i - k);
    }
  }

  /** The heart of chunking independence: text fed later sees all it needs of the
      text fed earlier in the mode and the held buffer. */
  lemma {:induction false} DrainAppend(m: Mode, a: string, b: string)
    ensures var d := Drain(m, a);
      Drain(m, a + b) == After(d.parts, Drain(d.mode, d.buffer + b))
    decreases |a|
  {
    hide Tag, Find, HoldFrom, Drain;
    var tag := Tag(m);
    match Find(a, tag) {
      case Some(i) =>
        FindAppend(a, b, tag);
        var rest := a[i + |tag|..];
        assert (a + b)[i + |tag|..] == rest + b;
        assert (a + b)[..i] == a[..i];
        DrainFound(m, a);
        DrainFound(m, a + b);
        DrainAppend(Flip(m), rest, b);
      case None =>
        DrainHeld(m, a);
        DrainAppendHeld(m, a, b);
    }
  }

  lemma AfterOnly(m: Mode, x: string, y: string, d: Drained)
    ensures After(Only(m, x), After(Only(m, y), d)) == After(Only(m, x + y), d)
  {
    JoinAssoc(Only(m, x), Only(m, y), d.parts);
  }

  lemma DrainAppendHeld(m: Mode, a: string, b: string)
    requires Find(a, Tag(m)).None?
    ensures var k := HoldFrom(a, Tag(m));
      Drain(m, a + b) == After(Only(m, a[..k]), Drain(m, a[k..] + b))
  {
    hide Tag, Find, HoldFrom, Drain, After, Only, Join;
    var tag := Tag(m);
    var k := HoldFrom(a, tag);
    var rest := a[k..] + b;
    FindAfterHold(a, b, tag);
    match Find(rest, tag) {
      case Some(i) =>
        DrainFound(m, a + b);
        DrainFound(m, rest);
        SliceJoin(a, b, k, i);
        SliceJoin(a, b, k, i + |tag|);
        AfterOnly(m, a[..k], rest[..i], Drain(Flip(m), rest[i + |tag|..]));
      case None =>
        DrainHeld(m, a + b);
        DrainHeld(m, rest);
        HoldAfterHold(a, b, tag);
        var h := HoldFrom(rest, tag);
        SliceJoin(a, b, k, h);
        HeldAfterOnly(m, a[..k], rest[..h], rest[h..]);
    }
  }

  lemma HeldAfterOnly(m: Mode, x: string, y: string, buffer: string)
    ensures After(Only(m, x), Drained(Only(m, y), m, buffer)) == Drained(Only(m, x + y), m, buffer)
  {
  }

  /** Releasing what is still held gives the one-shot split. */
  lemma {:induction false} DrainThenFlushIsSplit(m: Mode, s: string)
    ensures var d := Drain(m, s);
      Join(d.parts, Only(d.mode, d.buffer)) == Split(m, s)
    decreases |s|
  {
    hide Tag, Find, HoldFrom, Drain, Split;
    SplitAtTag(m, s);
    match Find(s, Tag(m)) {
      case Some(i) =>
        DrainFound(m, s);
        DrainThenFlushIsSplit(Flip(m), s[i + |Tag(m)|..]);
      case None =>
        DrainHeld(m, s);
        var k := HoldFrom(s, Tag(m));
        assert s[..k] + s[k..] == s;
    }
  }

  /** Feeding the chunks one after the other, then flushing. */
  function FeedAll(chunks: seq<string>): Drained {
    if chunks == [] then Drained(Parts("", ""), Outside, "")
    else
      var d := FeedAll(chunks[..|chunks| - 1]);
      After(d.parts, Drain(d.mode, d.buffer + chunks[|chunks| - 1]))
  }

  lemma DrainNothing()
    ensures Drain(Outside, "") == Drained(Parts("", ""), Outside, "")
  {
  }

  /** For every text and every way to cut it, the parts released while feeding and
      by the flush are those of the one-shot split of the whole text. */
  lemma {:induction false} ChunkingIndependence(chunks: seq<string>)
    ensures FeedAll(chunks) == Drain(Outside, Concat(chunks))
    ensures var d := FeedAll(chunks);
      Join(d.parts, Only(d.mode, d.buffer)) == Split(Outside, Concat(chunks))
    decreases |chunks|
  {
    hide Drain, Split;
    if chunks == [] {
      DrainNothing();
    } else {
      var front := chunks[..|chunks| - 1];
      ChunkingIndependence(front);
      DrainAppend(Outside, Concat(front), chunks[|chunks| - 1]);
    }
    DrainThenFlushIsSplit(Outside, Concat(chunks));
  }

  // ---- Nothing is released too early, nothing is kept too long ----

  lemma {:induction false} HeldIsTagPrefix(m: Mode, s: string)
    ensures var d := Drain(m, s); d.buffer < Tag(d.mode)
    decreases |s|
  {
    hide Tag, Find, HoldFrom, Drain;
    match Find(s, Tag(m)) {
      case Some(i) =>
        DrainFound(m, s);
        HeldIsTagPrefix(Flip(m), s[i + |Tag(m)|..]);
      case None =>
        DrainHeld(m, s);
    }
  }

  lemma SplitExtends(m: Mode, s: string, more: string)
    ensures var d := Drain(m, s);
      Split(m, s + more) == Join(d.parts, Split(d.mode, d.buffer + more))
  {
    hide Drain, Split;
    var d := Drain(m, s);
    DrainAppend(m, s, more);
    DrainThenFlushIsSplit(m, s + more);
    DrainThenFlushIsSplit(d.mode, d.buffer + more);
    var e := Drain(d.mode, d.buffer + more);
    JoinAssoc(d.parts, e.parts, Only(e.mode, e.buffer));
  }

  lemma LoneTag(m: Mode)
    ensures Split(m, Tag(m)) == Parts("", "")
  {
    hide Tag;
    assert Tag(m)[|Tag(m)|..] == "";
  }

  /** The text released so far is the longest that every continuation of the
      stream agrees on: a longer one would be wrong for some continuation. */
  lemma HoldBackExact(s: string, x: string)
    ensures (forall more :: x <= Split(Outside, s + more).content) <==> x <= Drain(Outside, s).parts.content
    ensures (forall more :: x <= Split(Outside, s + more).reasoning) <==> x <= Drain(Outside, s).parts.reasoning
  {
    hide Tag, Drain, Split;
    var d := Drain(Outside, s);
    HeldIsTagPrefix(Outside, s);
    forall more ensures d.parts.content <= Split(Outside, s + more).content
                ensures d.parts.reasoning <= Split(Outside, s + more).reasoning
    {
      SplitExtends(Outside, s, more);
    }
    var tag := Tag(d.mode);
    var rest := tag[|d.buffer|..];
    SplitExtends(Outside, s, rest);
    assert d.buffer + rest == tag;
    LoneTag(d.mode);
    assert Split(Outside, s + rest) == d.parts;
  }

  // ---- Every character is accounted for ----

  /** The text between tags, from a mode on. */
  function Segments(m: Mode, s: string): (r: seq<string>)
    ensures r != []
    decreases |s|
  {
    match Find(s, Tag(m))
    case None => [s]
    case Some(i) => [s[..i]] + Segments(Flip(m), s[i + |Tag(m)|..])
  }

  /** Segments with the alternating tags put back between them. */
  function Weave(m: Mode, segments: seq<string>): string
    decreases |segments|
  {
    if segments == [] then ""
    else if |segments| == 1 then segments[0]
    else segments[0] + Tag(m) + Weave(Flip(m), segments[1..])
  }

  function Deal(m: Mode, segments: seq<string>): Parts
    decreases |segments|
  {
    if segments == [] then Parts("", "")
    else Join(Only(m, segments[0]), Deal(Flip(m), segments[1..]))
  }

  lemma WeaveStep(m: Mode, head: string, tail: seq<string>)
    requires tail != []
    ensures Weave(m, [head] + tail) == head + Tag(m) + Weave(Flip(m), tail)
    ensures Deal(m, [head] + tail) == Join(Only(m, head), Deal(Flip(m), tail))
  {
    hide Tag;
    assert ([head] + tail)[1..] == tail;
  }

  lemma WeaveLast(m: Mode, s: string)
    ensures Weave(m, [s]) == s
    ensures Deal(m, [s]) == Only(m, s)
  {
    assert [s][1..] == [];
    assert s + "" == s;
  }

  lemma CutAtTag(s: string, tag: string, i: nat)
    requires i + |tag| <= |s| && tag <= s[i..]
    ensures s == s[..i] + tag + s[i + |tag|..]
  {
    assert s[i..i + |tag|] == s[i..][..|tag|] == tag;
  }

  /** The parts are the segments dealt out in turn, and the segments with the tags
      between them are the text: nothing is lost, doubled or reordered. */
  lemma {:induction false} SplitIsLossless(m: Mode, s: string)
    ensures Weave(m, Segments(m, s)) == s
    ensures Deal(m, Segments(m, s)) == Split(m, s)
    decreases |s|
  {
    hide Tag, Find, Split, Weave, Deal, Only, Join;
    SplitAtTag(m, s);
    match Find(s, Tag(m)) {
      case None =>
        WeaveLast(m, s);
      case Some(i) =>
        var rest := s[i + |Tag(m)|..];
        SplitIsLossless(Flip(m), rest);
        WeaveStep(m, s[..i], Segments(Flip(m), rest));
        CutAtTag(s, Tag(m), i);
    }
  }

  // ---- The splitter ----

  /** `longest_ambiguous_suffix`: longest candidate first. */
  method LongestAmbiguousSuffix(text: string, tag: string) returns (start: nat)
    ensures start == HoldFrom(text, tag)
  {
    hide HoldFrom;
    var keep := if |tag| > |text| then |text| else if tag == "" then 0 else |tag| - 1;
    while keep >= 1
      invariant 0 <= keep <= |text|
      invariant forall i :: 0 <= i < |text| - keep ==> !(text[i..] < tag)
    {
      start := |text| - keep;
      if text[start..] <= tag {
        HoldFromAt(text, tag, start);
        return start;
      }
      keep := keep - 1;
    }
    start := |text|;
    HoldFromAt(text, tag, start);
  }

  lemma AfterNothing(d: Drained)
    ensures After(Parts("", ""), d) == d
  {
    assert "" + d.parts.content == d.parts.content && "" + d.parts.reasoning == d.parts.reasoning;
  }

  lemma AfterAfter(p: Parts, q: Parts, d: Drained)
    ensures After(p, After(q, d)) == After(Join(p, q), d)
  {
    JoinAssoc(p, q, d.parts);
  }

  lemma AfterHeld(p: Parts, q: Parts, m: Mode, buffer: string)
    ensures After(p, Drained(q, m, buffer)) == Drained(Join(p, q), m, buffer)
  {
  }

  class Splitter {
    const extract: bool
    var mode: Mode
    var buffer: string
    /** Everything fed and everything released so far. */
    ghost var seen: string
    ghost var released: Parts

    ghost predicate Valid()
      reads this
    {
      if extract then Drained(released, mode, buffer) == Drain(Outside, seen)
      else released == Parts(seen, "") && buffer == ""
    }

    constructor (extract: bool)
      ensures Valid() && this.extract == extract
      ensures seen == "" && released == Parts("", "")
    {
      this.extract := extract;
      mode, buffer, seen, released := Outside, "", "", Parts("", "");
    }

    /** The loop that works through the held text and the new chunk. */
    method WorkThrough(text: string) returns (delta: Parts)
      modifies this`mode, this`buffer
      ensures Drained(delta, mode, buffer) == Drain(old(mode), text)
    {
      hide Tag, Find, HoldFrom, Drain, After, Join, Only;
      AfterNothing(Drain(mode, text));
      delta := Parts("", "");
      var work := text;
      while true
        invariant Drain(old(mode), text) == After(delta, Drain(mode, work))
        decreases |work|
      {
        var at := Find(work, Tag(mode));
        if at.Some? {
          DrainFound(mode, work);
          AfterAfter(delta, Only(mode, work[..at.value]), Drain(Flip(mode), work[at.value + |Tag(mode)|..]));
          delta := Join(delta, Only(mode, work[..at.value]));
          work := work[at.value + |Tag(mode)|..];
          mode := Flip(mode);
        } else {
          DrainHeld(mode, work);
          AfterHeld(delta, Only(mode, work[..HoldFrom(work, Tag(mode))]), mode, work[HoldFrom(work, Tag(mode))..]);
          var keep := LongestAmbiguousSuffix(work, Tag(mode));
          delta := Join(delta, Only(mode, work[..keep]));
          buffer := work[keep..];
          return;
        }
      }
    }

    method Feed(chunk: string) returns (delta: Parts)
      requires Valid()
      modifies this
      ensures Valid()
      ensures seen == old(seen) + chunk
      ensures released == Join(old(released), delta)
    {
      hide Drain;
      if !extract {
        delta := Parts(chunk, "");
      } else if chunk == "" {
        delta := Parts("", "");
        assert seen + chunk == seen;
      } else {
        DrainAppend(Outside, seen, chunk);
        delta := WorkThrough(buffer + chunk);
      }
      seen, released := seen + chunk, Join(released, delta);
    }

    /** After the flush everything fed has been released, split as in one shot. */
    method Flush() returns (delta: Parts)
      requires Valid()
      modifies this
      ensures released == Join(old(released), delta)
      ensures seen == old(seen) && buffer == ""
      ensures extract ==> released == Split(Outside, seen)
      ensures !extract ==> released == Parts(seen, "")
    {
      DrainThenFlushIsSplit(Outside, seen);
      delta := Parts("", "");
      if extract {
        delta := Only(mode, buffer);
        buffer := "";
      }
      released := Join(released, delta);
    }
  }
}
