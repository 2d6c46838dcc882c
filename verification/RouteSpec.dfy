/** Routes of the JavaScript library: what a declaration means, how an address is built from it and read back. */
module RouteSpec {
  import opened Json
  import opened Texts
  import Percent

  datatype Segment = Star | Param(key: string) | Literal(text: string)

  datatype RouteError =
    | QueryInRoute
    | WildcardTwice
    | PartialWildcard
    | BadName
    | DuplicateName(key: string)
    | PartialParam
    | MissingValue(key: string)

  datatype Result<T> = Ok(value: T) | Err(error: RouteError)

  predicate NameStart(c: char) {
    'A' <= c <= 'Z' || 'a' <= c <= 'z' || c == '_'
  }

  predicate IsName(s: string) {
    s != "" && NameStart(s[0]) && forall c <- s :: NameStart(c) || '0' <= c <= '9'
  }

  // ---------- declarations ----------

  /** One piece of a declaration, after the keys of the pieces before it. */
  function ParsePiece(piece: string, keys: seq<string>): Result<Segment> {
    if piece == "*" then
      if "*" in keys then Err(WildcardTwice) else Ok(Star)
    else if '*' in piece then Err(PartialWildcard)
    else if piece != "" && piece[0] == ':' then
      var key := piece[1..];
      if !IsName(key) then Err(BadName)
      else if key in keys then Err(DuplicateName(key))
      else Ok(Param(key))
    else if ':' in piece then Err(PartialParam)
    else Ok(Literal(piece))
  }

  function KeyOf(segment: Segment): seq<string> {
    match segment
    case Star => ["*"]
    case Param(key) => [key]
    case Literal(_) => []
  }

  function KeysOf(segments: seq<Segment>): seq<string> {
    if segments == [] then [] else KeyOf(segments[0]) + KeysOf(segments[1..])
  }

  function ParsePieces(pieces: seq<string>, keys: seq<string>): (r: Result<seq<Segment>>)
    ensures r.Ok? ==> |r.value| == |pieces|
    decreases |pieces|
  {
    if pieces == [] then Ok([])
    else match ParsePiece(pieces[0], keys)
         case Err(e) => Err(e)
         case Ok(segment) =>
           match ParsePieces(pieces[1..], keys + KeyOf(segment))
           case Err(e) => Err(e)
           case Ok(rest) => Ok([segment] + rest)
  }

  function ParseSegments(route: string): Result<seq<Segment>> {
    if '?' in route then Err(QueryInRoute) else ParsePieces(Split(route, '/'), [])
  }

  // ---------- matching ----------

  predicate LineEnd(c: char) {
    c == '\n' || c == '\r' || c == '\U{2028}' || c == '\U{2029}'
  }

  /** What one segment matches on its own. */
  predicate Fits(segment: Segment, value: string) {
    match segment
    case Star => forall c <- value :: !LineEnd(c)
    case Param(_) => value != "" && '/' !in value
    case Literal(text) => value == text
  }

  predicate AllFit(segments: seq<Segment>, values: seq<string>) {
    |values| == |segments| && forall i :: 0 <= i < |segments| ==> Fits(segments[i], values[i])
  }

  /** The characters that a segment's pattern could take from the front of a text. */
  function Reach(segment: Segment, s: string): (n: nat)
    ensures n <= |s|
  {
    if s == "" then 0
    else match segment
         case Star => if LineEnd(s[0]) then 0 else 1 + Reach(segment, s[1..])
         case Param(_) => if s[0] == '/' then 0 else 1 + Reach(segment, s[1..])
         case Literal(text) => if text <= s then |text| else 0
  }

  /** The least it must take. */
  function Least(segment: Segment): nat {
    match segment
    case Star => 0
    case Param(_) => 1
    case Literal(text) => |text|
  }

  /** The route's regular expression, run as a regular expression is: a segment takes as much as it can and gives
      back one character at a time until the rest matches. The result has one value per segment. */
  function Match(segments: seq<Segment>, s: string): Option<seq<string>>
    requires segments != []
    decreases |segments|, |s| + 2
  {
    Try(segments, s, Reach(segments[0], s))
  }

  function Try(segments: seq<Segment>, s: string, n: nat): Option<seq<string>>
    requires segments != [] && n <= |s|
    decreases |segments|, n + 1
  {
    if n < Least(segments[0]) then None
    else
      match Rest(segments[1..], s[n..])
      case Some(values) => Some([s[..n]] + values)
      case None => if n == 0 then None else Try(segments, s, n - 1)
  }

  /** The end of the text after the last segment, a slash and the next segment after any other. */
  function Rest(segments: seq<Segment>, s: string): Option<seq<string>>
    decreases |segments|, |s| + 3
  {
    if segments == [] then if s == "" then Some([]) else None
    else if s == "" || s[0] != '/' then None
    else Match(segments, s[1..])
  }

  // ---------- reading an address ----------

  /** `/+` replaced by one slash. */
  function Collapse(s: string): string {
    if s == "" then ""
    else if s[0] == '/' && |s| > 1 && s[1] == '/' then Collapse(s[1..])
    else [s[0]] + Collapse(s[1..])
  }

  const PROTO := "__proto__"

  /** Assigning a string to this property of an object does nothing. */
  function Assign(object_: map<string, string>, key: string, value: string): map<string, string> {
    if key == PROTO then object_ else object_[key := value]
  }

  function ParamValue(segment: Segment, raw: string): Option<string> {
    if segment.Star? then Some(Collapse("/" + raw)) else Percent.Decode(raw)
  }

  /** The parameters collected from the values of the segments, or none if one cannot be decoded. */
  function Collect(segments: seq<Segment>, values: seq<string>, result: map<string, string>): Option<map<string, string>>
    requires |segments| == |values|
    decreases |segments|
  {
    if segments == [] then Some(result)
    else if segments[0].Literal? then Collect(segments[1..], values[1..], result)
    else match ParamValue(segments[0], values[0])
         case None => None
         case Some(value) => Collect(segments[1..], values[1..], Assign(result, KeyOf(segments[0])[0], value))
  }

  datatype Parsed =
    | Invalid(error: RouteError)
    | NoMatch
    | BadEncoding
    | Params(params: map<string, string>, query: string)

  lemma {:induction false} MatchLength(segments: seq<Segment>, s: string)
    requires segments != [] && Match(segments, s).Some?
    ensures |Match(segments, s).value| == |segments|
    decreases |segments|
  {
    TryLength(segments, s, Reach(segments[0], s));
  }

  lemma {:induction false} TryLength(segments: seq<Segment>, s: string, n: nat)
    requires segments != [] && n <= |s| && Try(segments, s, n).Some?
    ensures |Try(segments, s, n).value| == |segments|
    decreases |segments|, n
  {
    if Rest(segments[1..], s[n..]).Some? {
      if |segments| > 1 { MatchLength(segments[1..], s[n..][1..]); }
    } else {
      TryLength(segments, s, n - 1);
    }
  }

  /** The address up to a '?' is matched; what follows it, up to another '?', is the query text. */
  function Parse(route: string, address: string): Parsed {
    match ParseSegments(route)
    case Err(e) => Invalid(e)
    case Ok(segments) =>
      if segments == [] then NoMatch
      else
        var parts := Split(address, '?');
        match Match(segments, parts[0])
        case None => NoMatch
        case Some(values) =>
          MatchLength(segments, parts[0]);
          match Collect(segments, values, map[])
          case None => BadEncoding
          case Some(params) => Params(params, if |parts| > 1 then parts[1] else "")
  }

  // ---------- building an address ----------

  function Strip(s: string): string {
    if s != "" && s[0] == '/' then Strip(s[1..]) else s
  }

  function BuildPiece(piece: string, params: map<string, string>): Result<string> {
    var key := if piece == "*" then "*" else if piece != "" && piece[0] == ':' then piece[1..] else "";
    if key == "" then Ok(piece)
    else if key !in params || params[key] == "" then Err(MissingValue(key))
    else if key == "*" then Ok(Strip(params[key]))
    else Ok(Percent.Encode(params[key]))
  }

  function BuildPieces(pieces: seq<string>, params: map<string, string>): (r: Result<seq<string>>)
    ensures r.Ok? ==> |r.value| == |pieces|
    decreases |pieces|
  {
    if pieces == [] then Ok([])
    else match BuildPiece(pieces[0], params)
         case Err(e) => Err(e)
         case Ok(value) =>
           match BuildPieces(pieces[1..], params)
           case Err(e) => Err(e)
           case Ok(rest) => Ok([value] + rest)
  }

  function Build(route: string, params: map<string, string>): Result<string> {
    match ParseSegments(route)
    case Err(e) => Err(e)
    case Ok(_) =>
      match BuildPieces(Split(route, '/'), params)
      case Err(e) => Err(e)
      case Ok(values) => Ok(Join(values, '/'))
  }
}
