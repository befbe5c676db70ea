/** Reconciling media markers in a prompt with the media given (marker.rs). */
module Markers {
  import opened Options
  import opened Search

  /** Non-overlapping occurrences, left to right; an empty marker occurs around
      every character. */
  function CountMarkers(s: string, marker: string): nat
    decreases |s|
  {
    if marker == "" then |s| + 1
    else
      match Find(s, marker)
      case None => 0
      case Some(i) => 1 + CountMarkers(s[i + |marker|..], marker)
  }

  datatype Injected = Ok(text: string) | MarkerMismatch(markers: nat, medias: nat)

  /** `m` markers, each on a line of its own after what precedes it. */
  function Lines(marker: string, m: nat): string {
    if m == 0 then "" else "\n" + marker + Lines(marker, m - 1)
  }

  /** The separator before the first marker is left out of an empty prompt. */
  function Appended(prompt: string, marker: string, m: nat): string {
    if prompt == "" && m > 0 then marker + Lines(marker, m - 1) else prompt + Lines(marker, m)
  }

  lemma Regroup(a: string, b: string, c: string, d: string)
    ensures a + (b + c + d) == a + b + c + d
  {
  }

  lemma {:induction false} LinesGrow(marker: string, m: nat)
    ensures Lines(marker, m + 1) == Lines(marker, m) + "\n" + marker
  {
    hide Lines;
    LinesStep(marker, m);
    if m == 0 {
      NoLines(marker);
      assert "\n" + marker + "" == "" + "\n" + marker;
    } else {
      LinesGrow(marker, m - 1);
      LinesStep(marker, m - 1);
      Regroup("\n" + marker, Lines(marker, m - 1), "\n", marker);
    }
  }

  lemma LinesStep(marker: string, m: nat)
    ensures Lines(marker, m + 1) == "\n" + marker + Lines(marker, m)
  {
  }

  lemma NoLines(marker: string)
    ensures Lines(marker, 0) == ""
  {
  }

  /** Parts on lines of their own. */
  function JoinLines(parts: seq<string>): string {
    if parts == [] then ""
    else if |parts| == 1 then parts[0]
    else JoinLines(parts[..|parts| - 1]) + "\n" + parts[|parts| - 1]
  }

  /** The prompt, if there is one, and `m` times the marker. */
  function PromptAndMarkers(prompt: string, marker: string, m: nat): seq<string> {
    (if prompt == "" then [] else [prompt]) + seq(m, i => marker)
  }

  lemma JoinLinesSnoc(parts: seq<string>, part: string)
    ensures JoinLines(parts + [part]) == if parts == [] then part else JoinLines(parts) + "\n" + part
  {
    assert (parts + [part])[..|parts|] == parts;
  }

  /** What is appended: every marker on a line of its own. */
  lemma {:induction false} AppendedIsLines(prompt: string, marker: string, m: nat)
    ensures Appended(prompt, marker, m) == JoinLines(PromptAndMarkers(prompt, marker, m))
  {
    hide Appended, JoinLines;
    if m == 0 {
      NothingAppended(prompt, marker);
    } else {
      AppendedIsLines(prompt, marker, m - 1);
      AppendOneMore(prompt, marker, m - 1);
      var parts := PromptAndMarkers(prompt, marker, m - 1);
      JoinLinesSnoc(parts, marker);
      assert PromptAndMarkers(prompt, marker, m) == parts + [marker];
      NothingAppended(prompt, marker);
      assert "" + marker == marker;
    }
  }

  lemma NothingAppended(prompt: string, marker: string)
    ensures Appended(prompt, marker, 0) == prompt == JoinLines(PromptAndMarkers(prompt, marker, 0))
  {
    assert prompt + "" == prompt;
  }

  function Inject(prompt: string, marker: string, nMedia: nat): Injected {
    var count := CountMarkers(prompt, marker);
    if count == nMedia then Ok(prompt)
    else if count == 0 then Ok(Appended(prompt, marker, nMedia))
    else MarkerMismatch(count, nMedia)
  }

  method InjectMarkers(prompt: string, marker: string, nMedia: nat) returns (r: Injected)
    ensures r == Inject(prompt, marker, nMedia)
  {
    var count := CountMarkers(prompt, marker);
    if count == nMedia {
      return Ok(prompt);
    }
    if count == 0 && nMedia > 0 {
      var s := prompt;
      for i := 0 to nMedia
        invariant s == Appended(prompt, marker, i)
      {
        AppendOneMore(prompt, marker, i);
        if i > 0 || prompt != "" {
          s := s + "\n";
        }
        s := s + marker;
      }
      return Ok(s);
    }
    return MarkerMismatch(count, nMedia);
  }

  lemma AppendOneMore(prompt: string, marker: string, i: nat)
    ensures Appended(prompt, marker, i + 1) ==
      (if i > 0 || prompt != "" then Appended(prompt, marker, i) + "\n" + marker
       else Appended(prompt, marker, i) + marker)
  {
    hide Lines;
    NoLines(marker);
    if prompt != "" {
      LinesGrow(marker, i);
      Regroup(prompt, Lines(marker, i), "\n", marker);
    } else if i > 0 {
      LinesGrow(marker, i - 1);
      Regroup(marker, Lines(marker, i - 1), "\n", marker);
    } else {
      assert marker + "" == "" + "" + marker;
    }
  }

  /** A marker whose end the separator cannot be taken for. */
  predicate KeepsApart(marker: string) {
    marker == "" || marker[|marker| - 1] != '\n'
  }

  /** A match ends in the last character of the marker, so none ends at or before a
      separator that follows marker-free text. */
  lemma NoMatchUpToSeparator(before: string, marker: string, rest: string, i: nat)
    requires marker != "" && KeepsApart(marker) && Find(before, marker).None?
    requires i + |marker| <= |before| + 1
    ensures !OccursAt(before + "\n" + marker + rest, marker, i)
  {
    hide Find;
    var s := before + "\n" + marker + rest;
    FindIsFirst(before, marker);
    if i + |marker| <= |before| {
      assert s[i..i + |marker|] == before[i..i + |marker|];
      assert !OccursAt(before, marker, i);
    } else {
      assert s[i..i + |marker|][|marker| - 1] == '\n';
    }
  }

  /** Past marker-free text and a separator, the first match reaches into the marker
      that follows, and at the latest is that marker. */
  lemma FindAcrossSeparator(before: string, marker: string, rest: string) returns (i: nat)
    requires marker != "" && KeepsApart(marker) && Find(before, marker).None?
    ensures Find(before + "\n" + marker + rest, marker) == Some(i)
    ensures |before| + 1 < i + |marker| <= |before| + 1 + |marker|
  {
    hide Find, KeepsApart, OccursAt;
    var s := before + "\n" + marker + rest;
    FindIsFirst(s, marker);
    MarkerOccurs(before, marker, rest);
    i := Find(s, marker).value;
    if i + |marker| <= |before| + 1 {
      NoMatchUpToSeparator(before, marker, rest, i);
    }
  }

  lemma MarkerOccurs(before: string, marker: string, rest: string)
    ensures OccursAt(before + "\n" + marker + rest, marker, |before| + 1)
  {
    var s := before + "\n" + marker + rest;
    assert s[|before| + 1..|before| + 1 + |marker|] == marker;
  }

  lemma CountStep(s: string, marker: string, i: nat)
    requires marker != "" && Find(s, marker) == Some(i)
    ensures CountMarkers(s, marker) == 1 + CountMarkers(s[i + |marker|..], marker)
  {
    hide Find;
  }

  lemma CountNothing(s: string, marker: string)
    requires marker != "" && Find(s, marker).None?
    ensures CountMarkers(s, marker) == 0
  {
  }

  /** A line of its own, and what a match that ends `k` characters into its marker
      leaves over. */
  lemma LineParts(before: string, marker: string, rest: string, k: nat)
    requires k <= |marker|
    ensures before + ("\n" + marker + rest) == before + "\n" + marker + rest
    ensures (before + "\n" + marker + rest)[|before| + 1 + k..] == marker[k..] + rest
  {
    Regroup(before, "\n", marker, rest);
    assert before + "\n" + marker + rest == (before + "\n" + marker[..k]) + (marker[k..] + rest);
  }

  lemma ShortHasNone(s: string, marker: string)
    requires |s| < |marker|
    ensures Find(s, marker).None?
  {
  }

  /** Every line adds one match.  A match may take the separator and the start of a
      marker; what it leaves of that marker is too short to hold another. */
  lemma {:induction false} LinesCount(before: string, marker: string, m: nat)
    requires marker != "" && KeepsApart(marker) && Find(before, marker).None?
    ensures CountMarkers(before + Lines(marker, m), marker) == m
    decreases m
  {
    hide Find, Lines, CountMarkers, KeepsApart;
    if m == 0 {
      NoLines(marker);
      assert before + "" == before;
      CountNothing(before, marker);
    } else {
      var rest := Lines(marker, m - 1);
      LinesStep(marker, m - 1);
      var i := FindAcrossSeparator(before, marker, rest);
      var k := i + |marker| - |before| - 1;
      LineParts(before, marker, rest, k);
      CountStep(before + "\n" + marker + rest, marker, i);
      ShortHasNone(marker[k..], marker);
      LinesCount(marker[k..], marker, m - 1);
    }
  }

  lemma NothingFound(marker: string)
    requires marker != ""
    ensures Find("", marker).None?
  {
  }

  lemma LeadingCount(marker: string, m: nat)
    requires marker != "" && KeepsApart(marker)
    ensures CountMarkers(marker + Lines(marker, m), marker) == m + 1
  {
    hide Find, Lines, CountMarkers;
    var rest := Lines(marker, m);
    CountLeading(marker, rest);
    assert "" + rest == rest;
    NothingFound(marker);
    LinesCount("", marker, m);
  }

  lemma CountLeading(marker: string, rest: string)
    requires marker != ""
    ensures CountMarkers(marker + rest, marker) == 1 + CountMarkers(rest, marker)
  {
    hide Find, CountMarkers;
    LeadingMarker(marker, rest);
    CountStep(marker + rest, marker, 0);
    assert (marker + rest)[0 + |marker|..] == rest;
  }

  lemma AppendedCount(prompt: string, marker: string, m: nat)
    requires KeepsApart(marker) && CountMarkers(prompt, marker) == 0
    ensures CountMarkers(Appended(prompt, marker, m), marker) == m
  {
    hide Find, Lines;
    if prompt == "" && m > 0 {
      LeadingCount(marker, m - 1);
    } else {
      LinesCount(prompt, marker, m);
    }
  }

  lemma LeadingMarker(marker: string, rest: string)
    requires marker != ""
    ensures Find(marker + rest, marker) == Some(0)
  {
  }

  /** For any marker and any prompt: success gives the prompt, continued, and - unless
      the marker ends in a newline - with exactly one marker per medium; failure
      happens exactly when the prompt already holds markers and not the right number
      of them. */
  lemma InjectionExact(prompt: string, marker: string, nMedia: nat)
    ensures CountMarkers(prompt, marker) == 0 && nMedia > 0 ==>
      Inject(prompt, marker, nMedia) == Ok(JoinLines(PromptAndMarkers(prompt, marker, nMedia)))
    ensures match Inject(prompt, marker, nMedia)
      case Ok(text) => prompt <= text && (KeepsApart(marker) ==> CountMarkers(text, marker) == nMedia)
      case MarkerMismatch(markers, medias) => markers == CountMarkers(prompt, marker) && medias == nMedia
    ensures Inject(prompt, marker, nMedia).MarkerMismatch?
       <==> CountMarkers(prompt, marker) != 0 && CountMarkers(prompt, marker) != nMedia
  {
    AppendedIsLines(prompt, marker, nMedia);
    if KeepsApart(marker) && CountMarkers(prompt, marker) == 0 {
      AppendedCount(prompt, marker, nMedia);
    }
  }

  /** Success gives one marker per medium. */
  predicate CountsRight(prompt: string, marker: string, nMedia: nat) {
    match Inject(prompt, marker, nMedia)
    case Ok(text) => CountMarkers(text, marker) == nMedia
    case MarkerMismatch(_, _) => true
  }

  /** The markers for which injection always counts right are exactly those that do
      not end in a newline. */
  lemma InjectionCountsExactly(marker: string)
    ensures (forall prompt, nMedia: nat :: CountsRight(prompt, marker, nMedia)) <==> KeepsApart(marker)
  {
    if KeepsApart(marker) {
      forall prompt, nMedia: nat ensures CountsRight(prompt, marker, nMedia) {
        InjectionExact(prompt, marker, nMedia);
      }
    } else if marker == "\n" {
      NewlineMarkerMiscounts();
      assert !CountsRight("a", marker, 1);
    } else {
      TrailingNewlineMiscounts(marker);
      assert !CountsRight(marker[..|marker| - 1], marker, 1);
    }
  }

  /** The separator completes a marker that lacks only its final newline. */
  lemma TrailingNewlineMiscounts(marker: string)
    requires |marker| >= 2 && !KeepsApart(marker)
    ensures var prompt := marker[..|marker| - 1];
      Inject(prompt, marker, 1) == Ok(marker + marker) && CountMarkers(marker + marker, marker) == 2
  {
    hide Find, CountMarkers, Lines, Appended;
    var prompt := marker[..|marker| - 1];
    assert marker == prompt + "\n";
    ShortHasNone(prompt, marker);
    CountNothing(prompt, marker);
    AppendToStem(prompt, marker);
    TwoMarkers(marker);
  }

  lemma AppendToStem(stem: string, marker: string)
    requires stem != "" && marker == stem + "\n"
    ensures Appended(stem, marker, 1) == marker + marker
  {
    hide Lines;
    LinesStep(marker, 0);
    NoLines(marker);
    assert "\n" + marker + "" == "\n" + marker;
    Regroup(stem, "\n", marker, "");
    assert marker + "" == marker && marker + marker + "" == marker + marker;
  }

  lemma TwoMarkers(marker: string)
    requires marker != ""
    ensures CountMarkers(marker + marker, marker) == 2
  {
    hide Find, CountMarkers;
    CountLeading(marker, marker);
    CountLeading(marker, "");
    assert marker + "" == marker;
    NothingFound(marker);
    CountNothing("", marker);
  }

  /** With a newline as the marker, one medium gets two. */
  lemma NewlineMarkerMiscounts()
    ensures Inject("a", "\n", 1) == Ok("a\n\n") && CountMarkers("a\n\n", "\n") == 2
  {
    hide Find, CountMarkers, Lines, OccursAt;
    LinesStep("\n", 0);
    NoLines("\n");
    assert "a" + ("\n" + "\n" + "") == "a\n\n";
    FindInLetter();
    CountNothing("a", "\n");
    FindInTwoNewlines();
    CountStep("a\n\n", "\n", 1);
    CountStep("\n", "\n", 0);
    assert "a\n\n"[1 + 1..] == "\n" && "\n"[0 + 1..] == "";
    NothingFound("\n");
    CountNothing("", "\n");
  }

  lemma FindInLetter()
    ensures Find("a", "\n").None?
  {
    hide Find;
    FindIsFirst("a", "\n");
    assert "a"[0..1] == "a";
  }

  lemma FindInTwoNewlines()
    ensures Find("a\n\n", "\n") == Some(1) && Find("\n", "\n") == Some(0)
  {
    hide Find;
    assert "a\n\n"[1..2] == "\n" && "a\n\n"[0..1] == "a" && "\n"[0..1] == "\n";
    FindUnique("a\n\n", "\n", 1);
    FindUnique("\n", "\n", 0);
  }
}
