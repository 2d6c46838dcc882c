/** How the Rust path parser reads escapes: whatever way a text is escaped, it is read back. */
module PathDecode {
  import opened Json
  import opened Texts
  import opened PathSpec

  lemma DigitRead(c: char, n: int)
    ensures HexDigit(c) == Some(n) <==> IsHexDigit(c, n)
  {
    HexDigitRange(c, n);
  }

  /** One character as it is written: as it is, or as an escape, whose first digit may be a plus sign in place of zero. */
  datatype Unit = Raw(c: char) | Escaped(c: char, high: char, low: char)

  predicate Proper(u: Unit) {
    match u
    case Raw(c) => c != '%'
    case Escaped(c, high, low) =>
      c as int < 256 && IsHexDigit(low, c as int % 16)
      && (IsHexDigit(high, c as int / 16) || (high == '+' && c as int < 16))
  }

  function Written(u: Unit): string {
    if u.Raw? then [u.c] else ['%', u.high, u.low]
  }

  function WrittenAll(units: seq<Unit>): string {
    if units == [] then "" else Written(units[0]) + WrittenAll(units[1..])
  }

  function Meant(units: seq<Unit>): string {
    if units == [] then "" else [units[0].c] + Meant(units[1..])
  }

  lemma UnitRead(u: Unit, rest: string)
    requires Proper(u)
    ensures PercentDecode(Written(u) + rest) == [u.c] + PercentDecode(rest)
  {
    var s := Written(u) + rest;
    if u.Raw? {
      assert s[1..] == rest;
    } else {
      var n := u.c as int;
      DigitRead(u.low, n % 16);
      DigitRead(u.high, n / 16);
      assert s[0] == '%' && s[1] == u.high && s[2] == u.low && s[3..] == rest;
      if !IsHexDigit(u.high, n / 16) { assert HexDigit('+') == None; }
      assert Hex(u.high, u.low) == Some(n);
      assert n as char == u.c;
    }
  }

  /** However the characters of a text are written, it is read back. */
  lemma {:induction false} AnyWritingRead(units: seq<Unit>)
    requires forall u <- units :: Proper(u)
    ensures PercentDecode(WrittenAll(units)) == Meant(units)
  {
    if units != [] {
      assert units[0] in units;
      AnyWritingRead(units[1..]);
      UnitRead(units[0], WrittenAll(units[1..]));
    }
  }

  ghost predicate StartsWithEscape(s: string) {
    exists u: Unit :: u.Escaped? && Proper(u) && Written(u) <= s
  }

  lemma ReadIsProper(a: char, b: char, n: int)
    requires Hex(a, b) == Some(n)
    ensures 0 <= n < 256 && Proper(Escaped(n as char, a, b))
  {
    var low := HexDigit(b).value;
    var high := if HexDigit(a).Some? then HexDigit(a).value else 0;
    DigitRead(b, low);
    if HexDigit(a).Some? { DigitRead(a, high); }
    assert 0 <= low < 16 && 0 <= high < 16 && n == 16 * high + low;
    assert n / 16 == high && n % 16 == low;
  }

  lemma EscapeShown(s: string)
    requires EscapeAt(s).Some?
    ensures StartsWithEscape(s)
  {
    var n := EscapeAt(s).value;
    ReadIsProper(s[1], s[2], n);
    var u := Escaped(n as char, s[1], s[2]);
    assert Written(u) == s[..3];
    assert u.Escaped? && Proper(u) && Written(u) <= s;
  }

  /** A percent sign in front of anything else stands for itself. */
  lemma OtherPercentKept(s: string)
    requires s != "" && !StartsWithEscape(s)
    ensures PercentDecode(s) == [s[0]] + PercentDecode(s[1..])
  {
    if EscapeAt(s).Some? { EscapeShown(s); }
  }
}
