/** Minting grammar rule names (oai_chat/common.rs). */
module RuleNames {
  import opened Options
  import opened Decimal

  // ---- De-duplication ----

  /** The first use of a base keeps it; use number `n` gets `-n`. */
  function Name(base: string, n: nat): string {
    if n == 0 then base else base + ['-'] + Show(n)
  }

  function Count(bases: seq<string>, base: string): (n: nat)
    ensures n <= |bases|
  {
    if bases == [] then 0
    else Count(bases[..|bases| - 1], base) + (if bases[|bases| - 1] == base then 1 else 0)
  }

  function Minted(bases: seq<string>): (names: seq<string>)
    ensures |names| == |bases|
  {
    if bases == [] then []
    else
      var n := |bases| - 1;
      Minted(bases[..n]) + [Name(bases[n], Count(bases[..n], bases[n]))]
  }

  class RuleNamer {
    var seen: map<string, nat>
    ghost var served: seq<string>

    ghost predicate Valid()
      reads this
    {
      forall b :: (if b in seen then seen[b] else 0) == Count(served, b)
    }

    constructor ()
      ensures Valid() && served == []
    {
      seen, served := map[], [];
    }

    /** The name returned is the one minted for the newest of all bases served. */
    method DedupRuleName(base: string) returns (name: string)
      requires Valid()
      modifies this
      ensures Valid() && served == old(served) + [base]
      ensures Minted(served) == Minted(old(served)) + [name]
    {
      var count := if base in seen then seen[base] else 0;
      name := if count == 0 then base else base + ['-'] + Show(count);
      seen := seen[base := count + 1];
      served := served + [base];
      assert served[..|served| - 1] == old(served);
    }
  }

  lemma {:induction false} MintedAt(bases: seq<string>, i: nat)
    requires i < |bases|
    ensures Minted(bases)[i] == Name(bases[i], Count(bases[..i], bases[i]))
    decreases |bases|
  {
    if i < |bases| - 1 {
      MintedAt(bases[..|bases| - 1], i);
      assert bases[..|bases| - 1][..i] == bases[..i];
    }
  }

  lemma {:induction false} CountGrows(bases: seq<string>, i: nat, j: nat, base: string)
    requires i <= j <= |bases|
    ensures Count(bases[..i], base) <= Count(bases[..j], base)
    ensures i < j && bases[i] == base ==> Count(bases[..i], base) < Count(bases[..j], base)
    decreases j
  {
    if i < j {
      assert bases[..j][..j - 1] == bases[..j - 1];
      CountGrows(bases, i, j - 1, base);
    }
  }

  lemma {:induction false} NthUse(bases: seq<string>, base: string, n: nat) returns (p: nat)
    requires n < Count(bases, base)
    ensures p < |bases| && bases[p] == base && Count(bases[..p], base) == n
    decreases |bases|
  {
    var last := |bases| - 1;
    if n < Count(bases[..last], base) {
      p := NthUse(bases[..last], base, n);
      assert bases[..last][..p] == bases[..p];
    } else {
      p := last;
    }
  }

  /** Some base is another base with a suffix that this other base really gets. */
  predicate Clash(bases: seq<string>, i: nat, j: nat, n: nat) {
    && i < |bases| && j < |bases|
    && 1 <= n < Count(bases, bases[i])
    && bases[j] == bases[i] + ['-'] + Show(n)
  }

  ghost predicate Clashes(bases: seq<string>) {
    exists i, j, n :: Clash(bases, i, j, n)
  }

  predicate Distinct(names: seq<string>) {
    forall i, j :: 0 <= i < j < |names| ==> names[i] != names[j]
  }

  lemma NameOfBase(base: string, m: nat, n: nat)
    requires Name(base, m) == Name(base, n)
    ensures m == n
  {
    if m > 0 && n > 0 {
      StopThenShowInjective(base, m, base, n, '-');
    }
  }

  lemma SameName(b: string, m: nat, c: string, n: nat)
    requires Name(b, m) == Name(c, n) && b != c
    ensures (m == 0 && n > 0) || (n == 0 && m > 0)
  {
    if m > 0 && n > 0 {
      StopThenShowInjective(b, m, c, n, '-');
    }
  }

  lemma CollisionIsClash(bases: seq<string>, i: nat, j: nat)
    requires i < j < |bases| && Minted(bases)[i] == Minted(bases)[j]
    ensures Clashes(bases)
  {
    hide Name, Count, Minted;
    MintedAt(bases, i);
    MintedAt(bases, j);
    var b, c := bases[i], bases[j];
    var m, n := Count(bases[..i], b), Count(bases[..j], c);
    assert bases[..|bases|] == bases;
    CountGrows(bases, i, j, b);
    CountGrows(bases, i, |bases|, b);
    CountGrows(bases, j, |bases|, c);
    if b == c {
      NameOfBase(b, m, n);
    } else {
      SameName(b, m, c, n);
      NameCases(b, m);
      NameCases(c, n);
      if m == 0 {
        assert Clash(bases, j, i, n);
      } else {
        assert Clash(bases, i, j, m);
      }
    }
  }

  lemma NameCases(base: string, n: nat)
    ensures n == 0 ==> Name(base, n) == base
    ensures n > 0 ==> Name(base, n) == base + ['-'] + Show(n)
  {
  }

  lemma ClashIsCollision(bases: seq<string>, i: nat, j: nat, n: nat)
    requires Clash(bases, i, j, n)
    ensures !Distinct(Minted(bases))
  {
    hide Name, Count, Minted;
    var c := bases[j];
    NameCases(bases[i], n);
    NameCases(c, 0);
    var p := NthUse(bases, bases[i], n);
    assert bases[..|bases|] == bases;
    CountGrows(bases, j, |bases|, c);
    var q := NthUse(bases, c, 0);
    MintedAt(bases, p);
    MintedAt(bases, q);
    assert |bases[p]| != |bases[q]|;
    assert Minted(bases)[p] == Minted(bases)[q];
  }

  /** The minted names are pairwise distinct if and only if no base equals another
      base followed by a number that this other base is given. */
  lemma MintedDistinctExactly(bases: seq<string>)
    ensures Distinct(Minted(bases)) <==> !Clashes(bases)
  {
    if Clashes(bases) {
      var i, j, n :| Clash(bases, i, j, n);
      ClashIsCollision(bases, i, j, n);
    }
    if !Distinct(Minted(bases)) {
      var i, j :| 0 <= i < j < |bases| && Minted(bases)[i] == Minted(bases)[j];
      CollisionIsClash(bases, i, j);
    }
  }

  // ---- Suffixes ----

  predicate IsAlnum(c: char) {
    'a' <= c <= 'z' || 'A' <= c <= 'Z' || '0' <= c <= '9'
  }

  function Lower(c: char): char {
    if 'A' <= c <= 'Z' then (c as int + 32) as char else c
  }

  predicate EndsInDash(s: string) {
    s != "" && s[|s| - 1] == '-'
  }

  /** Lower-cased alphanumerics; every run of other characters becomes one dash. */
  function Dashed(raw: string): string {
    if raw == "" then ""
    else
      var front, c := Dashed(raw[..|raw| - 1]), raw[|raw| - 1];
      if IsAlnum(c) then front + [Lower(c)]
      else if EndsInDash(front) then front
      else front + ['-']
  }

  function TrimLeft(s: string): string {
    if s != "" && s[0] == '-' then TrimLeft(s[1..]) else s
  }

  function TrimRight(s: string): string {
    if EndsInDash(s) then TrimRight(s[..|s| - 1]) else s
  }

  function Trimmed(s: string): string {
    TrimRight(TrimLeft(s))
  }

  function RuleSuffix(raw: string): Option<string> {
    var trimmed := Trimmed(Dashed(raw));
    if trimmed == "" then None else Some(trimmed)
  }

  method GrammarRuleSuffix(raw: string) returns (r: Option<string>)
    ensures r == RuleSuffix(raw)
  {
    var suffix := "";
    var lastWasDash := false;
    for i := 0 to |raw|
      invariant suffix == Dashed(raw[..i]) && lastWasDash == EndsInDash(suffix)
    {
      assert raw[..i + 1][..i] == raw[..i];
      if IsAlnum(raw[i]) {
        suffix := suffix + [Lower(raw[i])];
        lastWasDash := false;
      } else if !lastWasDash {
        suffix := suffix + ['-'];
        lastWasDash := true;
      }
    }
    assert raw[..|raw|] == raw;
    var trimmed := Trimmed(suffix);
    r := if trimmed == "" then None else Some(trimmed);
  }

  predicate IsRuleChar(c: char) {
    'a' <= c <= 'z' || '0' <= c <= '9' || c == '-'
  }

  /** Rule characters only, no two dashes in a row. */
  predicate Dashwise(s: string) {
    && (forall i :: 0 <= i < |s| ==> IsRuleChar(s[i]))
    && forall i :: 0 <= i < |s| - 1 ==> s[i] != '-' || s[i + 1] != '-'
  }

  /** What a usable suffix looks like. */
  predicate CleanSuffix(s: string) {
    s != "" && Dashwise(s) && s[0] != '-' && s[|s| - 1] != '-'
  }

  predicate HasAlnum(s: string) {
    exists i :: 0 <= i < |s| && IsAlnum(s[i])
  }

  predicate OnlyDashes(s: string) {
    forall i :: 0 <= i < |s| ==> s[i] == '-'
  }

  lemma {:induction false} DashedShape(raw: string)
    ensures Dashwise(Dashed(raw))
    ensures OnlyDashes(Dashed(raw)) <==> !HasAlnum(raw)
  {
    if raw != "" {
      var n := |raw| - 1;
      DashedShape(raw[..n]);
      if IsAlnum(raw[n]) {
        assert Dashed(raw)[|Dashed(raw)| - 1] == Lower(raw[n]) != '-';
      } else {
        assert HasAlnum(raw) ==> HasAlnum(raw[..n]) by {
          if i :| 0 <= i < n && IsAlnum(raw[i]) {
            assert IsAlnum(raw[..n][i]);
          }
        }
        assert forall i :: 0 <= i < |Dashed(raw[..n])| ==> Dashed(raw)[i] == Dashed(raw[..n])[i];
      }
    }
  }

  lemma {:induction false} TrimLeftShape(s: string)
    requires Dashwise(s)
    ensures Dashwise(TrimLeft(s)) && (TrimLeft(s) == "" || TrimLeft(s)[0] != '-')
    ensures TrimLeft(s) == "" <==> OnlyDashes(s)
  {
    if s != "" && s[0] == '-' {
      TrimLeftShape(s[1..]);
      assert OnlyDashes(s) <==> OnlyDashes(s[1..]);
    }
  }

  lemma {:induction false} TrimRightShape(s: string)
    requires Dashwise(s) && (s == "" || s[0] != '-')
    ensures TrimRight(s) == "" <==> s == ""
    ensures s != "" ==> CleanSuffix(TrimRight(s))
  {
    if EndsInDash(s) {
      TrimRightShape(s[..|s| - 1]);
    }
  }

  lemma {:induction false} CleanIsFixed(s: string)
    requires Dashwise(s) && (s == "" || s[0] != '-')
    ensures Dashed(s) == s
  {
    if s != "" {
      CleanIsFixed(s[..|s| - 1]);
      assert s == s[..|s| - 1] + [s[|s| - 1]];
    }
  }

  /** A name is refused exactly when it has no ASCII letter or digit; the suffixes
      produced are exactly the clean ones, and a clean suffix is its own suffix. */
  lemma RuleSuffixExact(raw: string, s: string)
    ensures RuleSuffix(raw).None? <==> !HasAlnum(raw)
    ensures RuleSuffix(raw).Some? ==> CleanSuffix(RuleSuffix(raw).value)
    ensures RuleSuffix(s) == Some(s) <==> CleanSuffix(s)
  {
    SuffixShape(raw);
    SuffixShape(s);
    if CleanSuffix(s) {
      CleanIsFixed(s);
    }
  }

  lemma SuffixShape(raw: string)
    ensures RuleSuffix(raw).None? <==> !HasAlnum(raw)
    ensures RuleSuffix(raw).Some? ==> CleanSuffix(RuleSuffix(raw).value)
  {
    hide Dashed, TrimLeft, TrimRight, Dashwise, OnlyDashes, HasAlnum;
    var d := Dashed(raw);
    DashedShape(raw);
    TrimLeftShape(d);
    TrimRightShape(TrimLeft(d));
  }

  // ---- What a suffix keeps ----

  const UPPER := "ABCDEFGHIJKLMNOPQRSTUVWXYZ"
  const LOWER := "abcdefghijklmnopqrstuvwxyz"
  const DIGITS := "0123456789"

  /** Letters and digits are those of ASCII ... */
  lemma AlnumExact(c: char)
    ensures IsAlnum(c) <==> c in UPPER || c in LOWER || c in DIGITS
  {
    TableOfCapitals(c);
    TableHas(LOWER, 'a', c);
    TableHas(DIGITS, '0', c);
  }

  lemma TableOfCapitals(c: char)
    ensures c in UPPER <==> 'A' <= c <= 'Z'
  {
    TableHas(UPPER, 'A', c);
  }

  /** ... each capital goes with its own small letter, and nothing else changes. */
  lemma LowerExact(c: char, i: nat)
    ensures i < 26 ==> Lower(UPPER[i]) == LOWER[i]
    ensures c !in UPPER ==> Lower(c) == c
  {
    CapitalGoesWithSmall(i);
    TableOfCapitals(c);
  }

  lemma CapitalGoesWithSmall(i: nat)
    ensures i < 26 ==> Lower(UPPER[i]) == LOWER[i]
  {
  }

  /** A table of consecutive characters holds exactly those of its range. */
  lemma TableHas(table: string, first: char, c: char)
    requires forall i :: 0 <= i < |table| ==> table[i] as int == first as int + i
    ensures c in table <==> first as int <= c as int < first as int + |table|
  {
    if first as int <= c as int < first as int + |table| {
      assert table[c as int - first as int] == c;
    }
  }

  /** The maximal runs of letters and digits, in lower case. */
  function Words(raw: string): (ws: seq<string>)
    ensures raw != "" && IsAlnum(raw[|raw| - 1]) ==> ws != []
    ensures ws != [] ==> raw != ""
    ensures forall k :: 0 <= k < |ws| ==> ws[k] != ""
  {
    if raw == "" then []
    else
      var n := |raw| - 1;
      var front, c := Words(raw[..n]), raw[n];
      if !IsAlnum(c) then front
      else if n > 0 && IsAlnum(raw[n - 1]) then front[..|front| - 1] + [front[|front| - 1] + [Lower(c)]]
      else front + [[Lower(c)]]
  }

  /** Words with one dash between them. */
  function Joined(ws: seq<string>): string {
    if ws == [] then ""
    else if |ws| == 1 then ws[0]
    else Joined(ws[..|ws| - 1]) + "-" + ws[|ws| - 1]
  }

  lemma JoinedGrows(ws: seq<string>, w: string, more: string)
    ensures ws != [] ==> Joined(ws + [w]) == Joined(ws) + "-" + w
    ensures Joined(ws + [w + more]) == Joined(ws + [w]) + more
  {
    assert (ws + [w])[..|ws|] == ws && (ws + [w + more])[..|ws|] == ws;
    if ws != [] {
      assert Joined(ws) + "-" + (w + more) == Joined(ws) + "-" + w + more;
    }
  }

  /** No dash at either end. */
  predicate BareEnds(s: string) {
    s != "" && s[0] != '-' && s[|s| - 1] != '-'
  }

  predicate BareWord(w: string) {
    w != "" && forall i :: 0 <= i < |w| ==> w[i] != '-'
  }

  lemma {:induction false} WordsAreBare(raw: string)
    ensures forall k :: 0 <= k < |Words(raw)| ==> BareWord(Words(raw)[k])
  {
    if raw != "" {
      WordsAreBare(raw[..|raw| - 1]);
    }
  }

  lemma {:induction false} JoinedIsBare(ws: seq<string>)
    requires ws != [] && forall k :: 0 <= k < |ws| ==> BareWord(ws[k])
    ensures BareEnds(Joined(ws))
  {
    if |ws| > 1 {
      JoinedIsBare(ws[..|ws| - 1]);
    }
  }

  function DashIf(b: bool): string {
    if b then "-" else ""
  }

  /** Before trimming, runs of other characters at the ends leave a dash. */
  predicate DashedFrom(raw: string, dashed: string, ws: seq<string>) {
    if ws == [] then dashed == DashIf(raw != "") && !HasAlnum(raw)
    else raw != "" && dashed == DashIf(!IsAlnum(raw[0])) + Joined(ws) + DashIf(!IsAlnum(raw[|raw| - 1]))
  }

  lemma {:induction false} DashedIsWords(raw: string)
    ensures DashedFrom(raw, Dashed(raw), Words(raw))
  {
    hide HasAlnum, Joined;
    if raw == "" {
      NothingToDash();
    } else {
      var n := |raw| - 1;
      var rest, c := raw[..n], raw[n];
      assert raw == rest + [c];
      DashedIsWords(rest);
      if !IsAlnum(c) {
        DashedOther(rest, c);
      } else if n > 0 && IsAlnum(raw[n - 1]) {
        DashedMore(rest, c);
      } else {
        DashedNew(rest, c);
      }
    }
  }

  lemma NothingToDash()
    ensures !HasAlnum("")
  {
  }

  lemma HasAlnumSnoc(rest: string, c: char)
    ensures HasAlnum(rest + [c]) <==> HasAlnum(rest) || IsAlnum(c)
  {
    var raw := rest + [c];
    assert raw[|rest|] == c;
    assert forall i :: 0 <= i < |rest| ==> raw[i] == rest[i];
    if i :| 0 <= i < |rest| && IsAlnum(rest[i]) {
      assert IsAlnum(raw[i]);
    }
  }

  /** A character that is no letter or digit ends in a dash, one at most. */
  lemma DashedOther(rest: string, c: char)
    requires !IsAlnum(c) && DashedFrom(rest, Dashed(rest), Words(rest))
    ensures DashedFrom(rest + [c], Dashed(rest + [c]), Words(rest + [c]))
  {
    hide HasAlnum, Joined;
    var raw, ws := rest + [c], Words(rest);
    assert raw[..|raw| - 1] == rest;
    HasAlnumSnoc(rest, c);
    if ws != [] {
      WordsAreBare(rest);
      JoinedIsBare(ws);
      OtherAfterWords(rest, c, Dashed(rest), ws);
    }
  }

  lemma OtherAfterWords(rest: string, c: char, dashed: string, ws: seq<string>)
    requires !IsAlnum(c) && ws != [] && BareEnds(Joined(ws)) && DashedFrom(rest, dashed, ws)
    ensures DashedFrom(rest + [c], if EndsInDash(dashed) then dashed else dashed + ['-'], ws)
  {
    hide HasAlnum, Joined, IsAlnum;
    var lead := DashIf(!IsAlnum(rest[0])) + Joined(ws);
    assert lead[|lead| - 1] == Joined(ws)[|Joined(ws)| - 1];
    assert lead + "" == lead;
    assert (rest + [c])[0] == rest[0];
  }

  lemma LetterSnoc(rest: string, c: char)
    requires IsAlnum(c)
    ensures Dashed(rest + [c]) == Dashed(rest) + [Lower(c)]
    ensures var ws := Words(rest);
      Words(rest + [c]) ==
        if rest != "" && IsAlnum(rest[|rest| - 1]) then ws[..|ws| - 1] + [ws[|ws| - 1] + [Lower(c)]]
        else ws + [[Lower(c)]]
  {
    hide Lower, EndsInDash;
    var raw := rest + [c];
    assert raw[..|raw| - 1] == rest;
  }

  lemma Regroup(lead: string, j: string, k: string)
    ensures lead + j + "" + k == lead + (j + k) + ""
    ensures lead + j + k == lead + (j + k) + ""
  {
  }

  /** A letter or digit after another one extends the last word. */
  lemma DashedMore(rest: string, c: char)
    requires IsAlnum(c) && rest != "" && IsAlnum(rest[|rest| - 1])
    requires DashedFrom(rest, Dashed(rest), Words(rest))
    ensures DashedFrom(rest + [c], Dashed(rest + [c]), Words(rest + [c]))
  {
    hide HasAlnum, Joined, Words, Dashed, IsAlnum, Lower;
    LetterSnoc(rest, c);
    var ws := Words(rest);
    LastWordGrows(ws, [Lower(c)]);
    var lead := DashIf(!IsAlnum(rest[0]));
    hide DashIf;
    NoDash();
    Regroup(lead, Joined(ws), [Lower(c)]);
    assert (rest + [c])[0] == rest[0];
  }

  lemma NoDash()
    ensures DashIf(false) == ""
  {
  }

  lemma LastWordGrows(ws: seq<string>, more: string)
    requires ws != []
    ensures var grown := ws[..|ws| - 1] + [ws[|ws| - 1] + more];
      grown != [] && Joined(grown) == Joined(ws) + more
  {
    hide Joined;
    var front, last := ws[..|ws| - 1], ws[|ws| - 1];
    assert ws == front + [last];
    JoinedGrows(front, last, more);
  }

  /** A letter or digit after something else starts a word. */
  lemma DashedNew(rest: string, c: char)
    requires IsAlnum(c) && (rest == "" || !IsAlnum(rest[|rest| - 1]))
    requires DashedFrom(rest, Dashed(rest), Words(rest))
    ensures DashedFrom(rest + [c], Dashed(rest + [c]), Words(rest + [c]))
  {
    hide HasAlnum, Joined, Words, Dashed, IsAlnum, Lower, DashIf;
    LetterSnoc(rest, c);
    NoDash();
    var ws, w := Words(rest), [Lower(c)];
    if ws == [] {
      FirstWord(rest, c, w);
    } else {
      LaterWord(rest, c, Dashed(rest), ws, w);
    }
  }

  lemma FirstWord(rest: string, c: char, w: string)
    requires IsAlnum(c) && !HasAlnum(rest)
    ensures DashedFrom(rest + [c], DashIf(rest != "") + w, [] + [w])
  {
    hide HasAlnum, Joined, IsAlnum, DashIf;
    OneWord(w);
    NoDash();
    Regroup(DashIf(rest != ""), "", w);
    if rest != "" {
      FirstIsOther(rest);
      assert (rest + [c])[0] == rest[0];
    }
  }

  lemma LaterWord(rest: string, c: char, dashed: string, ws: seq<string>, w: string)
    requires IsAlnum(c) && rest != "" && !IsAlnum(rest[|rest| - 1]) && ws != []
    requires DashedFrom(rest, dashed, ws)
    ensures DashedFrom(rest + [c], dashed + w, ws + [w])
  {
    hide HasAlnum, Joined, IsAlnum, DashIf;
    JoinedGrows(ws, w, "");
    NoDash();
    var lead, j := DashIf(!IsAlnum(rest[0])), Joined(ws);
    RegroupDash(lead, j, w);
    assert (rest + [c])[0] == rest[0];
  }

  lemma RegroupDash(lead: string, j: string, w: string)
    ensures DashIf(true) == "-"
    ensures lead + j + "-" + w == lead + (j + "-" + w) + ""
  {
  }

  lemma OneWord(w: string)
    ensures Joined([] + [w]) == w && "" + w == w
  {
  }

  lemma FirstIsOther(s: string)
    requires s != "" && !HasAlnum(s)
    ensures !IsAlnum(s[0])
  {
  }

  /** A suffix is made of all the words of the name, in order, with one dash between. */
  lemma SuffixIsWords(raw: string)
    ensures RuleSuffix(raw) == if Words(raw) == [] then None else Some(Joined(Words(raw)))
  {
    hide Dashed, Words, Joined, HasAlnum;
    DashedIsWords(raw);
    WordsAreBare(raw);
    if Words(raw) == [] {
      NothingButDash();
    } else {
      JoinedIsBare(Words(raw));
      TrimmedAround(Joined(Words(raw)), !IsAlnum(raw[0]), !IsAlnum(raw[|raw| - 1]));
    }
  }

  lemma NothingButDash()
    ensures Trimmed("") == "" && Trimmed("-") == ""
  {
    assert "-"[1..] == "";
  }

  lemma TrimmedAround(s: string, lead: bool, trail: bool)
    requires BareEnds(s)
    ensures Trimmed(DashIf(lead) + s + DashIf(trail)) == s
  {
    var t := s + DashIf(trail);
    TrimLeftDash(t);
    TrimRightDash(s);
    assert DashIf(lead) + s + DashIf(trail) == DashIf(lead) + t;
    assert "" + t == t && s + "" == s;
  }

  lemma TrimLeftDash(t: string)
    requires t != "" && t[0] != '-'
    ensures TrimLeft(t) == t && TrimLeft("-" + t) == t
  {
    assert ("-" + t)[1..] == t;
  }

  lemma TrimRightDash(s: string)
    requires s != "" && s[|s| - 1] != '-'
    ensures TrimRight(s) == s && TrimRight(s + "-") == s
  {
    assert (s + "-")[..|s + "-"| - 1] == s;
  }

  // ---- Tool rule names ----

  function ToolBases(names: seq<string>): Option<seq<string>> {
    if names == [] then Some([])
    else
      var n := |names| - 1;
      var front, last := ToolBases(names[..n]), RuleSuffix(names[n]);
      if front.None? || last.None? then None else Some(front.value + ["tool-" + last.value])
  }

  /** Bases are made of all the words of each name; one name without a letter or digit
      refuses the whole list. */
  lemma {:induction false} ToolBasesExact(names: seq<string>)
    ensures ToolBases(names).None? <==> exists i :: 0 <= i < |names| && !HasAlnum(names[i])
    ensures ToolBases(names).Some? ==>
      && |ToolBases(names).value| == |names|
      && forall i :: 0 <= i < |names| ==> ToolBases(names).value[i] == "tool-" + Joined(Words(names[i]))
  {
    hide RuleSuffix, HasAlnum, Joined, Words;
    if names != [] {
      var n := |names| - 1;
      ToolBasesExact(names[..n]);
      SuffixShape(names[n]);
      SuffixIsWords(names[n]);
    }
  }

  lemma MintedSnoc(bases: seq<string>, base: string)
    ensures Minted(bases + [base]) == Minted(bases) + [Name(base, Count(bases, base))]
    ensures forall b :: Count(bases + [base], b) == Count(bases, b) + (if b == base then 1 else 0)
  {
    assert (bases + [base])[..|bases|] == bases;
  }

  lemma ToolBasesSnoc(names: seq<string>, name: string, bases: seq<string>, suffix: string)
    requires ToolBases(names) == Some(bases) && RuleSuffix(name) == Some(suffix)
    ensures ToolBases(names + [name]) == Some(bases + ["tool-" + suffix])
  {
    hide RuleSuffix;
    assert (names + [name])[..|names|] == names;
  }

  /** The side condition is real: three usable tool names can be given only two
      different rules. */
  lemma ToolRulesCanCollide()
    ensures var bases := ["tool-a", "tool-a", "tool-a-1"];
      && ToolBases(["a", "A", "a 1"]) == Some(bases)
      && Minted(bases) == ["tool-a", "tool-a-1", "tool-a-1"]
  {
    NamesOfTwo();
    hide RuleSuffix, Minted, Count, ToolBases, Name;
    SuffixOfLetter('a');
    SuffixOfLetter('A');
    SuffixOfSpaced();
    NothingMinted();
    assert "tool-" + "a" == "tool-a" && "tool-" + "a-1" == "tool-a-1";
    var names1, bases1 := [] + ["a"], [] + ["tool-a"];
    var names2, bases2 := names1 + ["A"], bases1 + ["tool-a"];
    ToolBasesSnoc([], "a", [], "a");
    ToolBasesSnoc(names1, "A", bases1, "a");
    ToolBasesSnoc(names2, "a 1", bases2, "a-1");
    assert names2 + ["a 1"] == ["a", "A", "a 1"];
    MintedSnoc([], "tool-a");
    MintedSnoc(bases1, "tool-a");
    MintedSnoc(bases2, "tool-a-1");
    assert |"tool-a"| != |"tool-a-1"|;
    assert bases2 + ["tool-a-1"] == ["tool-a", "tool-a", "tool-a-1"];
  }

  lemma NothingMinted()
    ensures Minted([]) == [] && ToolBases([]) == Some([]) && forall b :: Count([], b) == 0
  {
  }

  lemma NamesOfTwo()
    ensures Name("tool-a", 0) == "tool-a" && Name("tool-a", 1) == "tool-a-1" && Name("tool-a-1", 0) == "tool-a-1"
  {
    assert Show(1) == "1";
  }

  lemma SuffixOfLetter(c: char)
    requires c == 'a' || c == 'A'
    ensures RuleSuffix([c]) == Some("a")
  {
    assert [c][..0] == "";
    assert Dashed([c]) == "a";
  }

  lemma SuffixOfSpaced()
    ensures RuleSuffix("a 1") == Some("a-1")
  {
    var raw := "a 1";
    assert raw[..2] == "a " && raw[..2][..1] == "a" && raw[..2][..1][..0] == "";
    assert Dashed(raw[..2][..1]) == "a";
    assert Dashed(raw[..2]) == "a-";
    assert Dashed(raw) == "a-1";
  }
}
