/** Percent-encoding of text as UTF-8, as ECMAScript's encodeURIComponent and decodeURIComponent define it
    (section 19.2.6 of ECMA-262; section 2.1 of RFC 3986). Text is a sequence of Unicode scalar values. */
module Percent {
  import opened Json
  import opened Texts

  predicate Alphanumeric(c: char) {
    'a' <= c <= 'z' || 'A' <= c <= 'Z' || '0' <= c <= '9'
  }

  /** The characters that encodeURIComponent leaves as they are. */
  predicate Unescaped(c: char) {
    Alphanumeric(c) || c in {'-', '_', '.', '!', '~', '*', '\'', '(', ')'}
  }

  type Byte = b: int | 0 <= b < 256

  function HexDigit(n: int): char
    requires 0 <= n < 16
  {
    if n < 10 then '0' + n as char else 'A' + (n - 10) as char
  }

  function HexValue(c: char): Option<int> {
    if '0' <= c <= '9' then Some(c as int - '0' as int)
    else if 'A' <= c <= 'F' then Some(c as int - 'A' as int + 10)
    else if 'a' <= c <= 'f' then Some(c as int - 'a' as int + 10)
    else None
  }

  function Escape(b: Byte): string {
    ['%', HexDigit(b / 16), HexDigit(b % 16)]
  }

  /** The UTF-8 form of a scalar value. */
  function Utf8(cp: int): (bytes: seq<Byte>)
    requires 0 <= cp < 0x110000
    ensures 1 <= |bytes| <= 4
  {
    if cp < 0x80 then [cp]
    else if cp < 0x800 then [0xC0 + cp / 64, 0x80 + cp % 64]
    else if cp < 0x10000 then [0xE0 + cp / 4096, 0x80 + cp / 64 % 64, 0x80 + cp % 64]
    else [0xF0 + cp / 262144, 0x80 + cp / 4096 % 64, 0x80 + cp / 64 % 64, 0x80 + cp % 64]
  }

  function Escapes(bytes: seq<Byte>): string {
    if bytes == [] then "" else Escape(bytes[0]) + Escapes(bytes[1..])
  }

  function EncodeChar(c: char): string {
    if Unescaped(c) then [c] else Escapes(Utf8(c as int))
  }

  function Encode(s: string): string {
    if s == "" then "" else EncodeChar(s[0]) + Encode(s[1..])
  }

  /** The byte escaped at the front of a text. */
  function EscapedByte(s: string): Option<int> {
    if |s| < 3 || s[0] != '%' then None
    else match (HexValue(s[1]), HexValue(s[2]))
         case (Some(h), Some(l)) => Some(16 * h + l)
         case _ => None
  }

  /** The low six bits of a continuation byte escaped at the front of a text. */
  function Continuation(s: string): Option<int> {
    match EscapedByte(s)
    case Some(b) => if 0x80 <= b < 0xC0 then Some(b - 0x80) else None
    case None => None
  }

  function Length(first: int): int {
    if first < 0x80 then 1
    else if 0xC0 <= first < 0xE0 then 2
    else if 0xE0 <= first < 0xF0 then 3
    else if 0xF0 <= first < 0xF8 then 4
    else 0
  }

  /** The scalar value escaped at the front of a text in `n` bytes. */
  function EscapedScalar(s: string, first: int, n: int): Option<int>
    requires n == 1 || n == 2 || n == 3 || n == 4
    requires |s| >= 3 * n
  {
    if n == 1 then Some(first)
    else if n == 2 then
      match Continuation(s[3..])
      case Some(a) => Some((first - 0xC0) * 64 + a)
      case None => None
    else if n == 3 then
      match (Continuation(s[3..]), Continuation(s[6..]))
      case (Some(a), Some(b)) => Some((first - 0xE0) * 4096 + a * 64 + b)
      case _ => None
    else
      match (Continuation(s[3..]), Continuation(s[6..]), Continuation(s[9..]))
      case (Some(a), Some(b), Some(c)) => Some((first - 0xF0) * 262144 + a * 4096 + b * 64 + c)
      case _ => None
  }

  /** A scalar value in its shortest form, and no surrogate. */
  predicate WellCoded(cp: int, n: int) {
    && 0 <= cp < 0x110000 && !(0xD800 <= cp < 0xE000)
    && (n == 2 ==> cp >= 0x80) && (n == 3 ==> cp >= 0x800) && (n == 4 ==> cp >= 0x10000)
  }

  /** Decoding fails on an escape that is incomplete or not the UTF-8 form of a scalar value. */
  function Decode(s: string): Option<string>
    decreases |s|
  {
    if s == "" then Some("")
    else if s[0] != '%' then
      match Decode(s[1..])
      case Some(rest) => Some([s[0]] + rest)
      case None => None
    else
      match EscapedByte(s)
      case None => None
      case Some(first) =>
        var n := Length(first);
        if n == 0 || |s| < 3 * n then None
        else
          match EscapedScalar(s, first, n)
          case None => None
          case Some(cp) =>
            if !WellCoded(cp, n) then None
            else match Decode(s[3 * n..])
                 case Some(rest) => Some([cp as char] + rest)
                 case None => None
  }

  // ---------- however a text is escaped ----------

  predicate HexPair(a: char, b: char, n: Byte) {
    IsHexDigit(a, n / 16) && IsHexDigit(b, n % 16)
  }

  /** Pairs of digits, one for each byte. */
  predicate Spells(digits: string, bytes: seq<Byte>)
    decreases |bytes|
  {
    if bytes == [] then digits == ""
    else |digits| >= 2 && HexPair(digits[0], digits[1], bytes[0]) && Spells(digits[2..], bytes[1..])
  }

  function Mark(digits: string): string
    requires |digits| >= 2
  {
    ['%', digits[0], digits[1]]
  }

  /** A percent sign in front of each pair. */
  function Marked(digits: string): string
    decreases |digits|
  {
    if |digits| < 2 then "" else Mark(digits) + Marked(digits[2..])
  }

  /** A character as it is written: as it is, or with every byte of its UTF-8 form escaped. */
  datatype Unit = Raw(c: char) | Coded(c: char, digits: string)

  predicate Proper(u: Unit) {
    if u.Raw? then u.c != '%' else Spells(u.digits, Utf8(u.c as int))
  }

  function Written(u: Unit): string {
    if u.Raw? then [u.c] else Marked(u.digits)
  }

  function WrittenAll(units: seq<Unit>): string {
    if units == [] then "" else Written(units[0]) + WrittenAll(units[1..])
  }

  function Meant(units: seq<Unit>): string {
    if units == [] then "" else [units[0].c] + Meant(units[1..])
  }

  lemma ValueOfDigit(c: char, n: int)
    ensures HexValue(c) == Some(n) <==> IsHexDigit(c, n)
  {
    HexDigitRange(c, n);
  }

  lemma MarkRead(digits: string, b: Byte, rest: string)
    requires |digits| >= 2 && HexPair(digits[0], digits[1], b)
    ensures EscapedByte(Mark(digits) + rest) == Some(b)
    ensures (Mark(digits) + rest)[3..] == rest && (Mark(digits) + rest)[0] == '%'
  {
    ValueOfDigit(digits[0], b / 16);
    ValueOfDigit(digits[1], b % 16);
  }

  /** What decoding makes of a scalar value read from `n` escaped bytes in front of `rest`. */
  function Read(cp: int, n: int, rest: string): Option<string> {
    if !WellCoded(cp, n) then None
    else match Decode(rest)
         case Some(t) => Some([cp as char] + t)
         case None => None
  }

  /** The text starts with the escapes of these bytes. */
  ghost predicate Starts(s: string, bytes: seq<int>) {
    |s| >= 3 * |bytes| && forall i :: 0 <= i < |bytes| ==> EscapedByte(s[3 * i..]) == Some(bytes[i])
  }

  lemma StartsCons(s: string, bytes: seq<int>)
    requires bytes != [] && EscapedByte(s) == Some(bytes[0]) && Starts(s[3..], bytes[1..])
    ensures Starts(s, bytes)
  {
    forall i | 0 <= i < |bytes| ensures EscapedByte(s[3 * i..]) == Some(bytes[i]) {
      if i == 0 {
        assert s[3 * i..] == s;
      } else {
        assert s[3 * i..] == s[3..][3 * (i - 1)..] && bytes[i] == bytes[1..][i - 1];
      }
    }
  }

  lemma MarkedCons(d: string, rest: string)
    requires |d| >= 2
    ensures Marked(d) + rest == Mark(d) + (Marked(d[2..]) + rest)
  {}

  lemma {:induction false} MarkedStarts(d: string, bytes: seq<Byte>, rest: string)
    requires Spells(d, bytes)
    ensures var s := Marked(d) + rest; Starts(s, bytes) && s[3 * |bytes|..] == rest
    decreases |bytes|
  {
    if bytes == [] {
      assert Marked(d) + rest == rest;
    } else {
      MarkedStarts(d[2..], bytes[1..], rest);
      MarkedCons(d, rest);
      var next := Marked(d[2..]) + rest;
      MarkRead(d, bytes[0], next);
      StartsCons(Mark(d) + next, bytes);
      assert (Mark(d) + next)[3 * |bytes|..] == next[3 * (|bytes| - 1)..];
    }
  }

  lemma ScalarRead(s: string, first: int, n: int, cp: int)
    requires s != "" && s[0] == '%' && EscapedByte(s) == Some(first) && Length(first) == n != 0
    requires |s| >= 3 * n && EscapedScalar(s, first, n) == Some(cp)
    ensures Decode(s) == Read(cp, n, s[3 * n..])
  {}

  lemma ContinuationAt(s: string, bytes: seq<int>, i: nat)
    requires Starts(s, bytes) && i < |bytes| && 0x80 <= bytes[i] < 0xC0
    ensures Continuation(s[3 * i..]) == Some(bytes[i] - 0x80)
  {}

  lemma LongRead(s: string, cp: int)
    requires 0x800 <= cp < 0x110000 && !(0xD800 <= cp < 0xE000) && Starts(s, Utf8(cp))
    ensures Decode(s) == Read(cp, |Utf8(cp)|, s[3 * |Utf8(cp)|..])
  {
    var u := Utf8(cp);
    assert s[3 * 0..] == s;
    ContinuationAt(s, u, 1);
    ContinuationAt(s, u, 2);
    if |u| == 3 {
      Digits3(cp);
    } else {
      ContinuationAt(s, u, 3);
      Digits4(cp);
    }
    ScalarRead(s, u[0], |u|, cp);
  }

  lemma StartsRead(s: string, cp: int)
    requires 0 <= cp < 0x110000 && !(0xD800 <= cp < 0xE000) && Starts(s, Utf8(cp))
    ensures Decode(s) == Read(cp, |Utf8(cp)|, s[3 * |Utf8(cp)|..])
  {
    var u := Utf8(cp);
    if cp >= 0x800 {
      LongRead(s, cp);
    } else {
      assert s[3 * 0..] == s;
      if |u| == 2 { ContinuationAt(s, u, 1); }
      ScalarRead(s, u[0], |u|, cp);
    }
  }

  lemma DecodeUtf8(cp: int, d: string, rest: string)
    requires 0 <= cp < 0x110000 && !(0xD800 <= cp < 0xE000) && Spells(d, Utf8(cp))
    ensures Decode(Marked(d) + rest) == Read(cp, |Utf8(cp)|, rest)
  {
    MarkedStarts(d, Utf8(cp), rest);
    StartsRead(Marked(d) + rest, cp);
  }

  lemma Digits3(cp: int)
    ensures cp / 4096 * 4096 + cp / 64 % 64 * 64 + cp % 64 == cp
  {
    assert cp / 64 / 64 == cp / 4096;
  }

  lemma Digits4(cp: int)
    ensures cp / 262144 * 262144 + cp / 4096 % 64 * 4096 + cp / 64 % 64 * 64 + cp % 64 == cp
  {
    Digits3(cp);
    assert cp / 4096 / 64 == cp / 262144;
  }

  lemma UnitRead(u: Unit, rest: string)
    requires Proper(u)
    ensures Decode(Written(u) + rest) == match Decode(rest) case Some(t) => Some([u.c] + t) case None => None
  {
    if u.Raw? {
      assert ([u.c] + rest)[1..] == rest;
    } else {
      DecodeUtf8(u.c as int, u.digits, rest);
    }
  }

  lemma {:induction false} AnyWritingRead(units: seq<Unit>)
    requires forall u <- units :: Proper(u)
    ensures Decode(WrittenAll(units)) == Some(Meant(units))
  {
    if units != [] {
      assert units[0] in units;
      AnyWritingRead(units[1..]);
      UnitRead(units[0], WrittenAll(units[1..]));
    }
  }

  // ---------- encoding is one way to write a text ----------

  function PairOf(b: Byte): string {
    [HexDigit(b / 16), HexDigit(b % 16)]
  }

  function PairsOf(bytes: seq<Byte>): string {
    if bytes == [] then "" else PairOf(bytes[0]) + PairsOf(bytes[1..])
  }

  lemma {:induction false} PairsSpell(bytes: seq<Byte>)
    ensures Spells(PairsOf(bytes), bytes) && Marked(PairsOf(bytes)) == Escapes(bytes)
  {
    if bytes != [] {
      PairsSpell(bytes[1..]);
      assert PairsOf(bytes)[2..] == PairsOf(bytes[1..]);
      DigitIsDigit(bytes[0] / 16);
      DigitIsDigit(bytes[0] % 16);
    }
  }

  lemma DigitIsDigit(n: int)
    requires 0 <= n < 16
    ensures IsHexDigit(HexDigit(n), n)
  {
    HexDigitRange(HexDigit(n), n);
  }

  function UnitOf(c: char): Unit {
    if Unescaped(c) then Raw(c) else Coded(c, PairsOf(Utf8(c as int)))
  }

  function UnitsOf(s: string): (units: seq<Unit>)
    ensures |units| == |s| && forall i :: 0 <= i < |s| ==> units[i] == UnitOf(s[i])
  {
    seq(|s|, i requires 0 <= i < |s| => UnitOf(s[i]))
  }

  lemma UnitProper(c: char)
    ensures Proper(UnitOf(c)) && Written(UnitOf(c)) == EncodeChar(c)
  {
    PairsSpell(Utf8(c as int));
  }

  lemma WrittenCons(units: seq<Unit>)
    requires units != []
    ensures WrittenAll(units) == Written(units[0]) + WrittenAll(units[1..])
    ensures Meant(units) == [units[0].c] + Meant(units[1..])
  {}

  lemma {:induction false} EncodeWrites(s: string)
    ensures WrittenAll(UnitsOf(s)) == Encode(s) && Meant(UnitsOf(s)) == s
  {
    var units := UnitsOf(s);
    if s != "" {
      var rest := UnitsOf(s[1..]);
      assert units[1..] == rest && units[0] == UnitOf(s[0]);
      EncodeWrites(s[1..]);
      UnitProper(s[0]);
      WrittenCons(units);
      assert [s[0]] + s[1..] == s;
    }
  }

  /** Decoding undoes encoding, for every text. */
  lemma PercentRoundTrip(s: string)
    ensures Decode(Encode(s)) == Some(s)
  {
    forall u | u in UnitsOf(s) ensures Proper(u) {
      var i :| 0 <= i < |s| && UnitsOf(s)[i] == u;
      UnitProper(s[i]);
    }
    AnyWritingRead(UnitsOf(s));
    EncodeWrites(s);
  }

  // ---------- nothing else is read ----------

  lemma MarkFound(s: string, b: int)
    requires EscapedByte(s) == Some(b)
    ensures 0 <= b < 256 && HexPair(s[1], s[2], b) && s == ['%', s[1], s[2]] + s[3..]
  {
    var h, l := HexValue(s[1]).value, HexValue(s[2]).value;
    ValueOfDigit(s[1], h);
    ValueOfDigit(s[2], l);
    assert b / 16 == h && b % 16 == l;
  }

  lemma TwoBytes(a: int, b: int)
    requires 0xC0 <= a < 0xE0 && 0x80 <= b < 0xC0 && (a - 0xC0) * 64 + (b - 0x80) >= 0x80
    ensures Utf8((a - 0xC0) * 64 + (b - 0x80)) == [a, b]
  {}

  lemma ThreeBytes(a: int, b: int, c: int)
    requires 0xE0 <= a < 0xF0 && 0x80 <= b < 0xC0 && 0x80 <= c < 0xC0
    requires (a - 0xE0) * 4096 + (b - 0x80) * 64 + (c - 0x80) >= 0x800
    ensures Utf8((a - 0xE0) * 4096 + (b - 0x80) * 64 + (c - 0x80)) == [a, b, c]
  {
    var cp := (a - 0xE0) * 4096 + (b - 0x80) * 64 + (c - 0x80);
    assert cp / 4096 == a - 0xE0 && cp / 64 == (a - 0xE0) * 64 + (b - 0x80) && cp % 64 == c - 0x80;
  }

  lemma FourBytes(a: int, b: int, c: int, e: int)
    requires 0xF0 <= a < 0xF8 && 0x80 <= b < 0xC0 && 0x80 <= c < 0xC0 && 0x80 <= e < 0xC0
    requires 0x10000 <= (a - 0xF0) * 262144 + (b - 0x80) * 4096 + (c - 0x80) * 64 + (e - 0x80) < 0x110000
    ensures Utf8((a - 0xF0) * 262144 + (b - 0x80) * 4096 + (c - 0x80) * 64 + (e - 0x80)) == [a, b, c, e]
  {
    var cp := (a - 0xF0) * 262144 + (b - 0x80) * 4096 + (c - 0x80) * 64 + (e - 0x80);
    assert cp / 262144 == a - 0xF0 && cp / 4096 == (a - 0xF0) * 64 + (b - 0x80) && cp % 64 == e - 0x80;
    assert cp / 64 == (a - 0xF0) * 4096 + (b - 0x80) * 64 + (c - 0x80);
  }

  /** The digits of the first `n` escapes of a text. */
  function DigitsOf(s: string, n: nat): string
    requires |s| >= 3 * n
    decreases n
  {
    if n == 0 then "" else [s[1], s[2]] + DigitsOf(s[3..], n - 1)
  }

  lemma MarkInFront(s: string, digits: string, rest: string)
    requires |s| >= 3 && s[0] == '%' && s[3..] == Marked(digits) + rest
    ensures s == Marked([s[1], s[2]] + digits) + rest && ([s[1], s[2]] + digits)[2..] == digits
  {
    assert ([s[1], s[2]] + digits)[2..] == digits;
    MarkedCons([s[1], s[2]] + digits, rest);
    assert s == ['%', s[1], s[2]] + s[3..];
  }

  lemma {:induction false} StartSpelled(s: string, n: nat, bytes: seq<Byte>)
    requires n == |bytes| && Starts(s, bytes)
    ensures Spells(DigitsOf(s, n), bytes) && s == Marked(DigitsOf(s, n)) + s[3 * n..]
    decreases n
  {
    if n > 0 {
      assert s[3 * 0..] == s;
      MarkFound(s, bytes[0]);
      assert s[0] == '%';
      forall i | 0 <= i < n - 1 ensures EscapedByte(s[3..][3 * i..]) == Some(bytes[1..][i]) {
        assert s[3..][3 * i..] == s[3 * (i + 1)..];
      }
      StartSpelled(s[3..], n - 1, bytes[1..]);
      var rest := DigitsOf(s[3..], n - 1);
      assert s[3..][3 * (n - 1)..] == s[3 * n..];
      MarkInFront(s, rest, s[3 * n..]);
    } else {
      assert s == "" + s[0..];
    }
  }

  lemma ContinuationFound(s: string)
    requires Continuation(s).Some?
    ensures EscapedByte(s) == Some(Continuation(s).value + 0x80) && 0 <= Continuation(s).value < 0x40
  {}

  /** The bytes of an escaped scalar value. */
  lemma TwoFound(s: string, first: int)
    requires EscapedByte(s) == Some(first) && Length(first) == 2 && |s| >= 6
    requires EscapedScalar(s, first, 2).Some? && WellCoded(EscapedScalar(s, first, 2).value, 2)
    ensures |Utf8(EscapedScalar(s, first, 2).value)| == 2 && Starts(s, Utf8(EscapedScalar(s, first, 2).value))
  {
    assert s[3 * 0..] == s;
    ContinuationFound(s[3..]);
    TwoBytes(first, Continuation(s[3..]).value + 0x80);
  }

  lemma ThreeFound(s: string, first: int)
    requires EscapedByte(s) == Some(first) && Length(first) == 3 && |s| >= 9
    requires EscapedScalar(s, first, 3).Some? && WellCoded(EscapedScalar(s, first, 3).value, 3)
    ensures |Utf8(EscapedScalar(s, first, 3).value)| == 3 && Starts(s, Utf8(EscapedScalar(s, first, 3).value))
  {
    assert s[3 * 0..] == s;
    ContinuationFound(s[3..]);
    ContinuationFound(s[6..]);
    ThreeBytes(first, Continuation(s[3..]).value + 0x80, Continuation(s[6..]).value + 0x80);
  }

  lemma FourValue(s: string, first: int)
    requires EscapedByte(s) == Some(first) && |s| >= 12 && EscapedScalar(s, first, 4).Some?
    ensures Continuation(s[3..]).Some? && Continuation(s[6..]).Some? && Continuation(s[9..]).Some?
    ensures EscapedScalar(s, first, 4).value == (first - 0xF0) * 262144 + Continuation(s[3..]).value * 4096
                                                + Continuation(s[6..]).value * 64 + Continuation(s[9..]).value
  {}

  lemma FourFound(s: string, first: int)
    requires EscapedByte(s) == Some(first) && Length(first) == 4 && |s| >= 12
    requires EscapedScalar(s, first, 4).Some? && WellCoded(EscapedScalar(s, first, 4).value, 4)
    ensures |Utf8(EscapedScalar(s, first, 4).value)| == 4 && Starts(s, Utf8(EscapedScalar(s, first, 4).value))
  {
    assert s[3 * 0..] == s;
    FourValue(s, first);
    ContinuationFound(s[3..]);
    ContinuationFound(s[6..]);
    ContinuationFound(s[9..]);
    FourBytes(first, Continuation(s[3..]).value + 0x80, Continuation(s[6..]).value + 0x80, Continuation(s[9..]).value + 0x80);
  }

  /** Bytes that give a well-coded value are its UTF-8 form. */
  lemma ScalarFound(s: string, first: int, n: nat)
    requires EscapedByte(s) == Some(first) && n == Length(first) && 1 <= n && |s| >= 3 * n
    requires EscapedScalar(s, first, n).Some? && WellCoded(EscapedScalar(s, first, n).value, n)
    ensures n == |Utf8(EscapedScalar(s, first, n).value)| && Starts(s, Utf8(EscapedScalar(s, first, n).value))
  {
    if n == 2 {
      TwoFound(s, first);
    } else if n == 3 {
      ThreeFound(s, first);
    } else if n == 4 {
      FourFound(s, first);
    } else {
      assert s[3 * 0..] == s;
      MarkFound(s, first);
    }
  }

  predicate Writes(units: seq<Unit>, s: string, t: string) {
    (forall u <- units :: Proper(u)) && WrittenAll(units) == s && Meant(units) == t
  }

  lemma WritesCons(u: Unit, units: seq<Unit>, s: string, t: string)
    requires Proper(u) && Writes(units, s, t)
    ensures Writes([u] + units, Written(u) + s, [u.c] + t)
  {
    assert ([u] + units)[1..] == units;
  }

  lemma {:induction false} OnlyWritingsRead(s: string) returns (units: seq<Unit>)
    requires Decode(s).Some?
    ensures Writes(units, s, Decode(s).value)
    decreases |s|
  {
    if s == "" {
      units := [];
    } else if s[0] != '%' {
      var rest := OnlyWritingsRead(s[1..]);
      WritesCons(Raw(s[0]), rest, s[1..], Decode(s[1..]).value);
      units := [Raw(s[0])] + rest;
      assert s == [s[0]] + s[1..];
    } else {
      var first := EscapedByte(s).value;
      var n := Length(first);
      var cp := EscapedScalar(s, first, n).value;
      var rest := OnlyWritingsRead(s[3 * n..]);
      ScalarFound(s, first, n);
      StartSpelled(s, n, Utf8(cp));
      var u := Coded(cp as char, DigitsOf(s, n));
      WritesCons(u, rest, s[3 * n..], Decode(s[3 * n..]).value);
      units := [u] + rest;
    }
  }

  /** A text is read as another if and only if it is one way to write it: characters other than the percent sign as they
      are, and any character as the escapes of its UTF-8 form. Everything else is refused. */
  lemma DecodeExactly(s: string, t: string)
    ensures Decode(s) == Some(t) <==> exists units :: Writes(units, s, t)
  {
    if Decode(s) == Some(t) { var units := OnlyWritingsRead(s); }
    if exists units :: Writes(units, s, t) {
      var units :| Writes(units, s, t);
      AnyWritingRead(units);
    }
  }

  // ---------- what is left as it is ----------

  /** Letters, digits and nine marks are left as they are, and nothing else is. */
  lemma LeftAsItIs(c: char)
    ensures EncodeChar(c) == [c]
       <==> c in UPPER + LOWER + DIGITS + {'-', '_', '.', '!', '~', '*', '\'', '(', ')'}
  {
    Upper(c);
    Lower(c);
    Digits(c);
  }

  predicate Safe(c: char) {
    Unescaped(c) || c == '%'
  }

  lemma {:induction false} EscapesSafe(bytes: seq<Byte>)
    ensures forall c <- Escapes(bytes) :: Safe(c)
    ensures bytes != [] ==> Escapes(bytes) != ""
  {
    if bytes != [] { EscapesSafe(bytes[1..]); }
  }

  /** Encoded text holds nothing that could be taken for syntax of an address. */
  lemma {:induction false} EncodedIsSafe(s: string)
    ensures forall c <- Encode(s) :: Safe(c)
    ensures Encode(s) == "" <==> s == ""
  {
    if s != "" {
      EncodedIsSafe(s[1..]);
      EscapesSafe(Utf8(s[0] as int));
    }
  }
}
