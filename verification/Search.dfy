/** Searching a string for a fixed pattern. */
module Search {
  import opened Options

  /** First place where `tag` occurs in `s`. */
  function Find(s: string, tag: string): (r: Option<nat>)
    ensures r.Some? ==> r.value + |tag| <= |s| && tag <= s[r.value..]
  {
    if |s| < |tag| then None
    else if tag <= s then Some(0)
    else
      match Find(s[1..], tag)
      case None => None
      case Some(i) => Some(i + 1)
  }

  /** `tag` occurs in `s` at `i`. */
  predicate OccursAt(s: string, tag: string, i: nat) {
    i + |tag| <= |s| && s[i..i + |tag|] == tag
  }

  lemma FindStep(s: string, tag: string)
    requires s != "" && tag != ""
    ensures Find(s, tag) ==
      if tag <= s then Some(0)
      else match Find(s[1..], tag) { case None => None case Some(i) => Some(i + 1) }
  {
  }

  /** Occurrences move with the start of the text. */
  lemma OccursShifted(s: string, t: string, k: nat, tag: string, i: nat)
    requires k <= |s| && t == s[k..] && k <= i
    ensures OccursAt(s, tag, i) <==> OccursAt(t, tag, i - k)
  {
    if i + |tag| <= |s| {
      assert s[i..i + |tag|] == t[i - k..i - k + |tag|];
    }
  }

  lemma {:induction false} FindIsFirst(s: string, tag: string)
    requires tag != ""
    ensures match Find(s, tag)
      case None => forall i :: !OccursAt(s, tag, i)
      case Some(k) => OccursAt(s, tag, k) && forall i :: 0 <= i < k ==> !OccursAt(s, tag, i)
  {
    hide Find, OccursAt;
    OccursAtStart(s, tag);
    if s == "" {
      NothingInEmpty(tag);
    } else {
      var rest := s[1..];
      FindStep(s, tag);
      FindIsFirst(rest, tag);
      forall i | 0 < i ensures OccursAt(s, tag, i) <==> OccursAt(rest, tag, i - 1) {
        OccursShifted(s, rest, 1, tag, i);
      }
      var r := Find(rest, tag);
      if r.Some? {
        assert OccursAt(s, tag, r.value + 1) <==> OccursAt(rest, tag, r.value);
      }
    }
  }

  lemma OccursAtStart(s: string, tag: string)
    ensures OccursAt(s, tag, 0) <==> tag <= s
  {
    if |tag| <= |s| {
      assert s[0..|tag|] == s[..|tag|];
    }
  }

  lemma NothingInEmpty(tag: string)
    requires tag != ""
    ensures Find("", tag).None? && forall i :: !OccursAt("", tag, i)
  {
  }

  /** The converse: the first place where it occurs is the one found. */
  lemma FindUnique(s: string, tag: string, k: nat)
    requires tag != "" && OccursAt(s, tag, k)
    requires forall i :: 0 <= i < k ==> !OccursAt(s, tag, i)
    ensures Find(s, tag) == Some(k)
  {
    hide Find, OccursAt;
    FindIsFirst(s, tag);
  }

  lemma FindAppend(a: string, b: string, tag: string)
    requires tag != "" && Find(a, tag).Some?
    ensures Find(a + b, tag) == Find(a, tag)
  {
    FindIsFirst(a, tag);
    var k := Find(a, tag).value;
    forall i | 0 <= i <= k
      ensures OccursAt(a + b, tag, i) <==> OccursAt(a, tag, i)
    {
      assert (a + b)[i..i + |tag|] == a[i..i + |tag|];
    }
    FindUnique(a + b, tag, k);
  }
}
