/** Splitting and joining of text. */
module Texts {

  /** The number of leading characters before the first `c`, or the length. */
  function Until(s: string, c: char): (n: nat)
    ensures n <= |s|
  {
    if s == "" || s[0] == c then 0 else 1 + Until(s[1..], c)
  }

  lemma {:induction false} UntilFinds(s: string, c: char)
    ensures c !in s[..Until(s, c)] && (Until(s, c) < |s| ==> s[Until(s, c)] == c)
    decreases s
  {
    var n := Until(s, c);
    if n > 0 {
      UntilFinds(s[1..], c);
      assert s[..n] == [s[0]] + s[1..][..n - 1];
    }
  }

  lemma {:induction false} UntilNone(s: string, c: char)
    requires c !in s
    ensures Until(s, c) == |s|
  {
    if s != "" { UntilNone(s[1..], c); }
  }

  /** The pieces between the occurrences of `c`; always at least one. */
  function Split(s: string, c: char): (pieces: seq<string>)
    ensures |pieces| >= 1
    decreases |s|
  {
    var n := Until(s, c);
    if n == |s| then [s] else [s[..n]] + Split(s[n + 1..], c)
  }

  lemma {:induction false} SplitPieces(s: string, c: char)
    ensures forall p <- Split(s, c) :: c !in p
    decreases |s|
  {
    var n := Until(s, c);
    UntilFinds(s, c);
    if n < |s| { SplitPieces(s[n + 1..], c); } else { assert s[..n] == s; }
  }

  function Join(pieces: seq<string>, c: char): string {
    if pieces == [] then ""
    else if |pieces| == 1 then pieces[0]
    else pieces[0] + [c] + Join(pieces[1..], c)
  }

  lemma {:induction false} UntilIs(a: string, c: char, b: string)
    requires c !in a
    ensures Until(a + [c] + b, c) == |a|
  {
    if a != "" {
      assert (a + [c] + b)[1..] == a[1..] + [c] + b;
      UntilIs(a[1..], c, b);
    }
  }

  lemma SplitHead(a: string, c: char, b: string)
    requires c !in a
    ensures Split(a + [c] + b, c) == [a] + Split(b, c)
  {
    UntilIs(a, c, b);
    var s := a + [c] + b;
    assert s[|a| + 1..] == b && s[..|a|] == a;
  }

  lemma {:induction false} SplitOfJoin(pieces: seq<string>, c: char)
    requires pieces != [] && forall p <- pieces :: c !in p
    ensures Split(Join(pieces, c), c) == pieces
  {
    if |pieces| > 1 {
      SplitOfJoin(pieces[1..], c);
      assert pieces[0] in pieces;
      SplitHead(pieces[0], c, Join(pieces[1..], c));
    } else {
      assert pieces == [pieces[0]] && pieces[0] in pieces;
      UntilNone(pieces[0], c);
    }
  }

  function Count(s: string, c: char): nat {
    if s == "" then 0 else (if s[0] == c then 1 else 0) + Count(s[1..], c)
  }

  lemma {:induction false} CountAppend(a: string, b: string, c: char)
    ensures Count(a + b, c) == Count(a, c) + Count(b, c)
  {
    if a == "" {
      assert a + b == b;
    } else {
      assert (a + b)[1..] == a[1..] + b;
      CountAppend(a[1..], b, c);
    }
  }

  lemma {:induction false} CountNone(s: string, c: char)
    ensures Count(s, c) == 0 <==> c !in s
  {
    if s != "" { CountNone(s[1..], c); }
  }

  lemma HeadsEqual(a: string, b: string, x: string, y: string, c: char)
    requires a + [c] + b == x + [c] + y && c !in a && c !in x
    ensures a == x && b == y
  {
    UntilIs(a, c, b);
    UntilIs(x, c, y);
    assert a == (a + [c] + b)[..|a|] && x == (x + [c] + y)[..|x|];
    assert b == (a + [c] + b)[|a| + 1..] && y == (x + [c] + y)[|x| + 1..];
  }

  lemma TailsEqual(a: string, b: string, x: string, y: string, c: char)
    requires a + [c] + b == x + [c] + y && Count(b, c) == Count(y, c)
    ensures a == x && b == y
  {
    var s := a + [c] + b;
    if |a| < |x| {
      Longer(a, b, x, y, c);
    } else if |x| < |a| {
      Longer(x, y, a, b, c);
    } else {
      assert a == s[..|a|] && x == s[..|x|] && b == s[|a| + 1..] && y == s[|x| + 1..];
    }
  }

  lemma Longer(a: string, b: string, x: string, y: string, c: char)
    requires a + [c] + b == x + [c] + y && |a| < |x|
    ensures Count(b, c) > Count(y, c)
  {
    var s := a + [c] + b;
    var middle := s[|a| + 1..|x|];
    assert b == middle + ([c] + y) by { assert b == s[|a| + 1..] && [c] + y == s[|x|..]; }
    CountAppend(middle, [c] + y, c);
    assert ([c] + y)[1..] == y;
  }

  // ---------- letters and digits ----------

  const UPPER: set<char> := {
    'A', 'B', 'C', 'D', 'E', 'F', 'G', 'H', 'I', 'J', 'K', 'L', 'M',
    'N', 'O', 'P', 'Q', 'R', 'S', 'T', 'U', 'V', 'W', 'X', 'Y', 'Z'}
  const LOWER: set<char> := {
    'a', 'b', 'c', 'd', 'e', 'f', 'g', 'h', 'i', 'j', 'k', 'l', 'm',
    'n', 'o', 'p', 'q', 'r', 's', 't', 'u', 'v', 'w', 'x', 'y', 'z'}
  const DIGITS: set<char> := {'0', '1', '2', '3', '4', '5', '6', '7', '8', '9'}

  lemma Upper(c: char)
    ensures c in UPPER <==> 'A' <= c <= 'Z'
  {}

  lemma Lower(c: char)
    ensures c in LOWER <==> 'a' <= c <= 'z'
  {}

  lemma Digits(c: char)
    ensures c in DIGITS <==> '0' <= c <= '9'
  {}

  const HEX_UPPER: string := "0123456789ABCDEF"
  const HEX_LOWER: string := "0123456789abcdef"

  /** A digit of a number in base 16, with large or small letters. */
  predicate IsHexDigit(c: char, n: int) {
    0 <= n < 16 && (c == HEX_UPPER[n] || c == HEX_LOWER[n])
  }

  lemma HexDigitRange(c: char, n: int)
    ensures IsHexDigit(c, n)
       <==> ('0' <= c <= '9' && n == c as int - '0' as int) || ('A' <= c <= 'F' && n == c as int - 'A' as int + 10)
            || ('a' <= c <= 'f' && n == c as int - 'a' as int + 10)
  {
    if 0 <= n < 16 { assert n in {0, 1, 2, 3, 4, 5, 6, 7, 8, 9, 10, 11, 12, 13, 14, 15}; }
  }
}
