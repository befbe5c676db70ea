/** Stripping an echoed generation prompt from a response (helpers.rs), and the body
    the streaming path re-emits (oai_chat/common.rs). */
module GenerationPrompt {
  import opened Options

  /** Lengths of the prefixes of the generation prompt that may be stripped: all of
      it, any of its lines' ends, nothing. */
  predicate Strippable(gp: string, n: nat) {
    n <= |gp| && (n == 0 || n == |gp| || gp[n - 1] == '\n')
  }

  predicate Echoed(s: string, gp: string, n: nat) {
    Strippable(gp, n) && gp[..n] <= s
  }

  /** The longest echoed prefix. */
  predicate Longest(s: string, gp: string, n: nat) {
    Echoed(s, gp, n) && forall k :: n < k <= |gp| ==> !Echoed(s, gp, k)
  }

  lemma LongestUnique(s: string, gp: string, m: nat, n: nat)
    requires Longest(s, gp, m) && Longest(s, gp, n)
    ensures m == n
  {
    assert Echoed(s, gp, m) && Echoed(s, gp, n);
  }

  function FirstNewline(s: string): (r: Option<nat>)
    ensures r.Some? ==> r.value < |s| && s[r.value] == '\n' && forall i :: 0 <= i < r.value ==> s[i] != '\n'
    ensures r.None? ==> forall i :: 0 <= i < |s| ==> s[i] != '\n'
  {
    if s == "" then None
    else if s[0] == '\n' then Some(0)
    else
      match FirstNewline(s[1..])
      case None => None
      case Some(i) => Some(i + 1)
  }

  /** For every response and every generation prompt, what is removed is the longest
      echoed prefix; the last resort of stripping the first line never finds
      anything the search over all lines has not found. */
  method StripGenerationPrompt(s: string, gp: string) returns (rest: string)
    ensures exists n: nat :: Longest(s, gp, n) && rest == s[n..]
  {
    if gp <= s {
      assert Longest(s, gp, |gp|);
      return s[|gp|..];
    }
    var longestLine: Option<nat> := None;
    for idx := 0 to |gp|
      invariant longestLine.Some? ==> 0 < longestLine.value <= idx && Echoed(s, gp, longestLine.value)
      invariant forall k :: (if longestLine.Some? then longestLine.value else 0) < k <= idx ==> !Echoed(s, gp, k)
    {
      if gp[idx] == '\n' && gp[..idx + 1] <= s {
        longestLine := Some(idx + 1);
      }
    }
    if longestLine.Some? {
      assert Longest(s, gp, longestLine.value);
      return s[longestLine.value..];
    }
    assert Longest(s, gp, 0);
    var newline := FirstNewline(gp);
    if newline.None? {
      return s;
    }
    var header := gp[..newline.value + 1];
    if header <= s {
      assert Echoed(s, gp, newline.value + 1);
      assert false;
    }
    return s;
  }

  /** Everything after the first line. */
  function Body(gp: string): string {
    match FirstNewline(gp)
    case None => ""
    case Some(i) => gp[i + 1..]
  }

  function Header(gp: string): string {
    match FirstNewline(gp)
    case None => gp
    case Some(i) => gp[..i + 1]
  }

  /** The header is the first line with its newline, or all of a prompt without one. */
  lemma HeaderIsFirstLine(gp: string)
    ensures '\n' in gp ==>
      var h := Header(gp); h != "" && h[|h| - 1] == '\n' && '\n' !in h[..|h| - 1]
    ensures '\n' !in gp ==> Header(gp) == gp
    ensures Header(gp) + Body(gp) == gp
  {
  }

  /** Behind the header, a prefix of the prompt is echoed exactly when the answer
      echoes the same prefix of the body. */
  lemma EchoedBehindHeader(gp: string, answer: string, n: nat)
    requires |Header(gp)| <= n
    ensures Echoed(Header(gp) + answer, gp, n) <==> Echoed(answer, Body(gp), n - |Header(gp)|)
  {
    var h, body := Header(gp), Body(gp);
    var m := n - |h|;
    assert gp == h + body;
    if n <= |gp| {
      assert gp[..n] == h + body[..m];
      if h + body[..m] <= h + answer {
        assert (h + answer)[|h|..] == answer && (h + body[..m])[|h|..] == body[..m];
        assert (h + answer)[|h|..n] == (h + body[..m])[|h|..n];
      }
    }
  }

  lemma HeaderThenBody(gp: string)
    ensures Header(gp) + Body(gp) == gp
  {
  }

  lemma WholePromptIsEchoed(gp: string, answer: string)
    ensures Echoed(gp + answer, gp, |gp|)
  {
  }

  lemma LongestIsBounded(s: string, gp: string, n: nat)
    requires Longest(s, gp, n)
    ensures n <= |gp|
  {
  }

  lemma HeaderIsEchoed(gp: string, answer: string)
    ensures |Header(gp)| <= |gp| && Echoed(Header(gp) + answer, gp, |Header(gp)|)
  {
    assert gp[..|Header(gp)|] == Header(gp);
  }

  /** Header and body are complementary.  A response that echoes the whole prompt
      loses all of it; one that echoes the header loses the header and, of the rest,
      what stripping the body alone would remove - so nothing more exactly when the
      answer echoes no line of the body. */
  lemma HeaderAndBody(gp: string, answer: string, n: nat)
    ensures Header(gp) + Body(gp) == gp
    ensures Longest(gp + answer, gp, n) ==> (gp + answer)[n..] == answer
    ensures |Header(gp)| <= n ==>
      (Longest(Header(gp) + answer, gp, n) <==> Longest(answer, Body(gp), n - |Header(gp)|))
    ensures Longest(Header(gp) + answer, gp, n) ==> |Header(gp)| <= n
  {
    hide Echoed, Header, Body;
    HeaderThenBody(gp);
    if Longest(gp + answer, gp, n) {
      WholePromptIsEchoed(gp, answer);
      LongestIsBounded(gp + answer, gp, n);
      assert n == |gp|;
      assert (gp + answer)[n..] == answer;
    }
    if Longest(Header(gp) + answer, gp, n) {
      HeaderIsEchoed(gp, answer);
    }
    if |Header(gp)| <= n {
      var h := |Header(gp)|;
      EchoedBehindHeader(gp, answer, n);
      forall k | h <= k <= |gp|
        ensures Echoed(Header(gp) + answer, gp, k) <==> Echoed(answer, Body(gp), k - h)
      {
        EchoedBehindHeader(gp, answer, k);
      }
      forall k | 0 <= k <= |Body(gp)|
        ensures Echoed(Header(gp) + answer, gp, h + k) <==> Echoed(answer, Body(gp), k)
      {
        EchoedBehindHeader(gp, answer, h + k);
        assert h + k - h == k;
      }
    }
  }
}
