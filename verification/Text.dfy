/** Small facts about strings used by several components. */
module Text {

  /** Concatenation of a sequence of pieces. */
  function Concat(pieces: seq<string>): string {
    if pieces == [] then "" else Concat(pieces[..|pieces| - 1]) + pieces[|pieces| - 1]
  }

  lemma ConcatSnoc(pieces: seq<string>, last: string)
    ensures Concat(pieces + [last]) == Concat(pieces) + last
  {
    assert (pieces + [last])[..|pieces|] == pieces;
  }

  /** Length of the UTF-8 encoding, the length a Rust string reports. */
  function ByteLen(s: string): nat {
    if s == "" then 0 else ByteLen(s[..|s| - 1]) + CharLen(s[|s| - 1])
  }

  function CharLen(c: char): (n: nat)
    ensures 1 <= n <= 4
  {
    var k := c as int;
    if k < 0x80 then 1 else if k < 0x800 then 2 else if k < 0x1_0000 then 3 else 4
  }

  lemma {:induction false} ByteLenAppend(a: string, b: string)
    ensures ByteLen(a + b) == ByteLen(a) + ByteLen(b)
    decreases |b|
  {
    if b == "" {
      assert a + b == a;
    } else {
      assert (a + b)[..|a + b| - 1] == a + b[..|b| - 1];
      ByteLenAppend(a, b[..|b| - 1]);
    }
  }

  /** The UTF-8 bytes of a character (section 3 of RFC 3629). */
  function Utf8(c: char): seq<int> {
    var n := c as int;
    var high, low := n / 0x40, 0x80 + n % 0x40;
    if n < 0x80 then [n]
    else if n < 0x800 then [0xC0 + high, low]
    else if n < 0x1_0000 then [0xE0 + high / 0x40, 0x80 + high % 0x40, low]
    else [0xF0 + high / 0x40 / 0x40, 0x80 + high / 0x40 % 0x40, 0x80 + high % 0x40, low]
  }

  /** The number a first byte and the bytes after it stand for. */
  function Utf8Value(bytes: seq<int>): int {
    match |bytes|
    case 1 => bytes[0]
    case 2 => Shift(bytes[0] - 0xC0, bytes[1])
    case 3 => Shift(Shift(bytes[0] - 0xE0, bytes[1]), bytes[2])
    case 4 => Shift(Shift(Shift(bytes[0] - 0xF0, bytes[1]), bytes[2]), bytes[3])
    case _ => -1
  }

  function Shift(high: int, byte: int): int {
    0x40 * high + byte - 0x80
  }

  lemma ShiftBack(n: nat)
    ensures Shift(n / 0x40, 0x80 + n % 0x40) == n
  {
  }

  /** The length counted for a character is that of its encoding, which can be read
      back. */
  lemma ByteLenIsUtf8(c: char)
    ensures ByteLen([c]) == |Utf8(c)|
    ensures Utf8Value(Utf8(c)) == c as int
  {
    hide Shift;
    assert [c][..0] == "";
    var n := c as int;
    ShiftBack(n);
    ShiftBack(n / 0x40);
    ShiftBack(n / 0x40 / 0x40);
  }

  /** First bytes tell the length, and are told apart from the bytes after them. */
  lemma Utf8BytesInRange(c: char)
    ensures var bytes := Utf8(c);
      && (match |bytes|
          case 1 => 0 <= bytes[0] < 0x80
          case 2 => 0xC2 <= bytes[0] < 0xE0
          case 3 => 0xE0 <= bytes[0] < 0xF0
          case _ => |bytes| == 4 && 0xF0 <= bytes[0] < 0xF5)
      && forall i :: 1 <= i < |bytes| ==> 0x80 <= bytes[i] < 0xC0
  {
  }

  lemma {:induction false} PrefixIsNotLonger(a: string, b: string)
    requires a <= b
    ensures ByteLen(a) <= ByteLen(b)
    decreases |b|
  {
    if |a| < |b| {
      PrefixIsNotLonger(a, b[..|b| - 1]);
    } else {
      assert a == b;
    }
  }

  predicate EndsWith(s: string, suffix: string) {
    |suffix| <= |s| && s[|s| - |suffix|..] == suffix
  }
}
