/** The Rust path parser: routes and paths as lists of non-empty pieces, percent-decoding, and matching. Text is
    ASCII, so a byte is a character. */
module PathSpec {
  import opened Json
  import opened Texts

  // ---------- pieces ----------

  function NonEmpty(pieces: seq<string>): seq<string> {
    if pieces == [] then [] else (if pieces[0] == "" then [] else [pieces[0]]) + NonEmpty(pieces[1..])
  }

  /** The non-empty pieces between slashes. */
  function Pieces(s: string): seq<string> {
    NonEmpty(Split(s, '/'))
  }

  function TrimStart(s: string): string {
    if s != "" && s[0] == '/' then TrimStart(s[1..]) else s
  }

  function TrimEnd(s: string): string {
    if s != "" && s[|s| - 1] == '/' then TrimEnd(s[..|s| - 1]) else s
  }

  /** Every two slashes in a row replaced by one, from left to right and once. */
  function Halve(s: string): string {
    if s == "" then ""
    else if |s| >= 2 && s[0] == '/' && s[1] == '/' then "/" + Halve(s[2..])
    else [s[0]] + Halve(s[1..])
  }

  predicate HasDouble(s: string) {
    exists i :: 0 <= i < |s| - 1 && s[i] == '/' && s[i + 1] == '/'
  }

  // ---------- percent-decoding ----------

  function HexDigit(c: char): Option<int> {
    if '0' <= c <= '9' then Some(c as int - '0' as int)
    else if 'A' <= c <= 'F' then Some(c as int - 'A' as int + 10)
    else if 'a' <= c <= 'f' then Some(c as int - 'a' as int + 10)
    else None
  }

  /** A two-character number in base 16 as Rust reads it: a plus sign may stand for the first digit. */
  function Hex(a: char, b: char): Option<int> {
    match (HexDigit(a), HexDigit(b))
    case (Some(h), Some(l)) => Some(16 * h + l)
    case (None, Some(l)) => if a == '+' then Some(l) else None
    case _ => None
  }

  function EscapeAt(s: string): Option<int> {
    if |s| > 2 && s[0] == '%' then Hex(s[1], s[2]) else None
  }

  function PercentDecode(s: string): string
    decreases |s|
  {
    if s == "" then ""
    else match EscapeAt(s)
         case Some(n) => [n as char] + PercentDecode(s[3..])
         case None => [s[0]] + PercentDecode(s[1..])
  }

  // ---------- matching ----------

  /** Text before and after the first `c`, if there is one. */
  function SplitOnce(s: string, c: char): Option<(string, string)> {
    var n := Until(s, c);
    if n < |s| then Some((s[..n], s[n + 1..])) else None
  }

  /** The parameter that a route segment binds for a path segment; none if they do not match. A literal segment
      binds nothing. */
  datatype Binding = Mismatch | Nothing | Bind(name: string, value: string)

  function Bound(routeSegment: string, pathSegment: string): Binding {
    match SplitOnce(routeSegment, ':')
    case None => if routeSegment == pathSegment then Nothing else Mismatch
    case Some((prefix, name)) =>
      if prefix <= pathSegment then Bind(name, PercentDecode(pathSegment[|prefix|..])) else Mismatch
  }

  /** The parameters after matching segment by segment; a later one of the same name wins. */
  function MatchSegments(routeSegments: seq<string>, pathSegments: seq<string>, params: map<string, string>)
    : Option<map<string, string>>
    decreases |routeSegments|
  {
    if |routeSegments| > |pathSegments| then None
    else if routeSegments == [] then Some(params)
    else match Bound(routeSegments[0], pathSegments[0])
         case Mismatch => None
         case Nothing => MatchSegments(routeSegments[1..], pathSegments[1..], params)
         case Bind(name, value) => MatchSegments(routeSegments[1..], pathSegments[1..], params[name := value])
  }

  // ---------- the query ----------

  function Values(query: map<string, seq<string>>, key: string): seq<string> {
    if key in query then query[key] else []
  }

  function AddPart(query: map<string, seq<string>>, part: string): map<string, seq<string>> {
    var (key, value) := SplitOnce(part, '=').GetOr((part, ""));
    query[PercentDecode(key) := Values(query, PercentDecode(key)) + [PercentDecode(value)]]
  }

  function AddParts(query: map<string, seq<string>>, parts: seq<string>): map<string, seq<string>>
    decreases |parts|
  {
    if parts == [] then query else AddParts(AddPart(query, parts[0]), parts[1..])
  }

  function Query(text: string): map<string, seq<string>> {
    if text == "" then map[] else AddParts(map[], Split(text, '&'))
  }

  // ---------- parsing ----------

  datatype Route = Route(params: map<string, string>, query: map<string, seq<string>>, wildcard: Option<string>)

  /** The index of the first wildcard, or the number of segments. */
  function WildcardIndex(segments: seq<string>): (i: nat)
    ensures i <= |segments|
    ensures "*" !in segments[..i] && (i < |segments| ==> segments[i] == "*")
  {
    if segments == [] || segments[0] == "*" then 0 else 1 + WildcardIndex(segments[1..])
  }

  function Smaller(a: nat, b: nat): nat {
    if a <= b then a else b
  }

  function ParsePieces(routeSegments: seq<string>, pathSegments: seq<string>, query: map<string, seq<string>>): Option<Route> {
    var index := WildcardIndex(routeSegments);
    if index < |routeSegments| then
      var cut := Smaller(index, |pathSegments|);
      match MatchSegments(routeSegments[..index], pathSegments[..cut], map[])
      case None => None
      case Some(params) => Some(Route(params, query, Some(Join(pathSegments[cut..], '/'))))
    else if |routeSegments| != |pathSegments| then None
    else match MatchSegments(routeSegments, pathSegments, map[])
         case None => None
         case Some(params) => Some(Route(params, query, None))
  }

  function Parse(route: string, path: string): Option<Route> {
    var current := if path == "" then "/" else path;
    var (head, text) := SplitOnce(current, '?').GetOr((current, ""));
    ParsePieces(Pieces(route), Pieces(head), Query(text))
  }
}
