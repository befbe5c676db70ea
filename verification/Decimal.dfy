/** Decimal notation of natural numbers, as `format!("{n}")` writes it. */
module Decimal {

  function Digit(d: nat): char
    requires d < 10
  {
    "0123456789"[d]
  }

  predicate IsDigit(c: char) {
    '0' <= c <= '9'
  }

  function Show(n: nat): (s: string)
    ensures s != ""
  {
    if n < 10 then [Digit(n)] else Show(n / 10) + [Digit(n % 10)]
  }

  lemma {:induction false} ShowDigits(n: nat)
    ensures forall i :: 0 <= i < |Show(n)| ==> IsDigit(Show(n)[i])
  {
    if n >= 10 {
      ShowDigits(n / 10);
    }
  }

  /** The number a row of digits stands for. */
  function Value(s: string): int {
    if s == "" then 0 else 10 * Value(s[..|s| - 1]) + (s[|s| - 1] as int - '0' as int)
  }

  /** Decimal notation means what it says, without leading zeros. */
  lemma {:induction false} ShowExact(n: nat)
    ensures Value(Show(n)) == n
    ensures Show(n)[0] == '0' ==> n == 0
  {
    if n < 10 {
      assert [Digit(n)][..0] == "";
    } else {
      ShowExact(n / 10);
      assert Show(n)[..|Show(n)| - 1] == Show(n / 10);
    }
  }

  lemma {:induction false} ShowInjective(a: nat, b: nat)
    ensures Show(a) == Show(b) <==> a == b
  {
    if Show(a) == Show(b) {
      var s, t := Show(a), Show(b);
      assert s[|s| - 1] == t[|t| - 1];
      assert s[..|s| - 1] == t[..|t| - 1];
      if a >= 10 && b >= 10 {
        assert s[..|s| - 1] == Show(a / 10);
        assert t[..|t| - 1] == Show(b / 10);
        ShowInjective(a / 10, b / 10);
      }
    }
  }

  /** In a number followed by a non-digit, the digits end at that character. */
  lemma DigitsEnd(n: nat, rest: string, stop: char)
    requires !IsDigit(stop)
    ensures var s := Show(n) + [stop] + rest;
      && s[|Show(n)|] == stop
      && forall i :: 0 <= i < |Show(n)| ==> IsDigit(s[i])
  {
    ShowDigits(n);
    var s := Show(n) + [stop] + rest;
    assert forall i :: 0 <= i < |Show(n)| ==> s[i] == Show(n)[i];
  }

  lemma SamePrefixLen(n: nat, m: nat, rest: string, rest': string, stop: char)
    requires !IsDigit(stop)
    requires Show(n) + [stop] + rest == Show(m) + [stop] + rest'
    ensures |Show(n)| == |Show(m)|
  {
    hide Show;
    DigitsEnd(n, rest, stop);
    DigitsEnd(m, rest', stop);
    var s := Show(n) + [stop] + rest;
    assert s[|Show(n)|] == s[|Show(m)|] == stop;
  }

  /** A number followed by a non-digit can be read back. */
  lemma ShowThenStopInjective(n: nat, m: nat, rest: string, rest': string, stop: char)
    requires !IsDigit(stop)
    requires Show(n) + [stop] + rest == Show(m) + [stop] + rest'
    ensures n == m
  {
    SamePrefixLen(n, m, rest, rest', stop);
    var k := |Show(n)|;
    assert Show(n) == (Show(n) + [stop] + rest)[..k] == (Show(m) + [stop] + rest')[..k] == Show(m);
    ShowInjective(n, m);
  }

  /** After a non-digit, only digits follow to the end. */
  lemma DigitsToEnd(before: string, n: nat, stop: char)
    requires !IsDigit(stop)
    ensures var s := before + [stop] + Show(n);
      && s[|before|] == stop
      && forall i :: |before| < i < |s| ==> IsDigit(s[i])
  {
    ShowDigits(n);
    var s := before + [stop] + Show(n);
    assert forall i :: |before| < i < |s| ==> s[i] == Show(n)[i - |before| - 1];
  }

  /** A number after a non-digit can be read back from the end. */
  lemma StopThenShowInjective(a: string, n: nat, b: string, m: nat, stop: char)
    requires !IsDigit(stop)
    requires a + [stop] + Show(n) == b + [stop] + Show(m)
    ensures a == b && n == m
  {
    var s := a + [stop] + Show(n);
    SameStop(a, n, b, m, stop);
    assert a == s[..|a|] == b;
    assert Show(n) == s[|a| + 1..] == Show(m);
    ShowInjective(n, m);
  }

  lemma SameStop(a: string, n: nat, b: string, m: nat, stop: char)
    requires !IsDigit(stop)
    requires a + [stop] + Show(n) == b + [stop] + Show(m)
    ensures |a| == |b|
  {
    hide Show;
    DigitsToEnd(a, n, stop);
    DigitsToEnd(b, m, stop);
    var s := a + [stop] + Show(n);
    assert s[|a|] == s[|b|] == stop;
  }
}
