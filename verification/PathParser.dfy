/** The parser as it runs: loops over text and segments, each equal to its specification. */
module PathParser {
  import opened Json
  import opened Texts
  import opened PathSpec
  import opened PathLaws

  method SplitPath(path: string) returns (pieces: seq<string>)
    ensures pieces == Pieces(path)
  {
    TrimKeepsPieces(path);
    var rest := TrimEnd(TrimStart(path));
    HalveKeepsPieces(rest);
    HalveKeepsEnds(rest);
    rest := Halve(rest);
    while HasDouble(rest)
      invariant Pieces(rest) == Pieces(path)
      invariant rest != "" ==> rest[0] != '/' && rest[|rest| - 1] != '/'
      decreases |rest|
    {
      HalveKeepsPieces(rest);
      HalveKeepsEnds(rest);
      HalveShrinks(rest);
      rest := Halve(rest);
    }
    if rest == "" { return []; }
    TidyPieces(rest);
    return Split(rest, '/');
  }

  method MatchAll(routeSegments: seq<string>, pathSegments: seq<string>)
    returns (matched: bool, params: map<string, string>)
    ensures MatchSegments(routeSegments, pathSegments, map[]) == if matched then Some(params) else None
  {
    params := map[];
    if |routeSegments| > |pathSegments| { return false, params; }
    var i := 0;
    while i < |routeSegments|
      invariant i <= |routeSegments| <= |pathSegments|
      invariant MatchSegments(routeSegments, pathSegments, map[])
             == MatchSegments(routeSegments[i..], pathSegments[i..], params)
      decreases |routeSegments| - i
    {
      assert routeSegments[i..][1..] == routeSegments[i + 1..] && pathSegments[i..][1..] == pathSegments[i + 1..];
      match Bound(routeSegments[i], pathSegments[i]) {
        case Mismatch => return false, params;
        case Nothing =>
        case Bind(name, value) => params := params[name := value];
      }
      i := i + 1;
    }
    return true, params;
  }

  method Decode(value: string) returns (out: string)
    ensures out == PercentDecode(value)
  {
    out := "";
    var i := 0;
    while i < |value|
      invariant i <= |value|
      invariant out + PercentDecode(value[i..]) == PercentDecode(value)
    {
      DecodeStep(out, value, i);
      if value[i] == '%' && i + 2 < |value| && Hex(value[i + 1], value[i + 2]).Some? {
        out := out + [Hex(value[i + 1], value[i + 2]).value as char];
        i := i + 3;
      } else {
        out := out + [value[i]];
        i := i + 1;
      }
    }
  }

  lemma DecodeStep(out: string, value: string, i: nat)
    requires i < |value| && out + PercentDecode(value[i..]) == PercentDecode(value)
    ensures if value[i] == '%' && i + 2 < |value| && Hex(value[i + 1], value[i + 2]).Some?
            then out + [Hex(value[i + 1], value[i + 2]).value as char] + PercentDecode(value[i + 3..]) == PercentDecode(value)
            else out + [value[i]] + PercentDecode(value[i + 1..]) == PercentDecode(value)
  {
    DecodeOne(value, i);
  }

  lemma DecodeOne(value: string, i: nat)
    requires i < |value|
    ensures PercentDecode(value[i..]) ==
            if value[i] == '%' && i + 2 < |value| && Hex(value[i + 1], value[i + 2]).Some?
            then [Hex(value[i + 1], value[i + 2]).value as char] + PercentDecode(value[i + 3..])
            else [value[i]] + PercentDecode(value[i + 1..])
  {
    if i + 2 < |value| { assert value[i..][3..] == value[i + 3..]; }
    assert value[i..][1..] == value[i + 1..];
  }

  method ParseQuery(text: string) returns (query: map<string, seq<string>>)
    ensures query == Query(text)
  {
    query := map[];
    if text == "" { return; }
    var parts := Split(text, '&');
    var i := 0;
    while i < |parts|
      invariant i <= |parts|
      invariant AddParts(map[], parts) == AddParts(query, parts[i..])
    {
      var (key, value) := SplitOnce(parts[i], '=').GetOr((parts[i], ""));
      var k := Decode(key);
      var v := Decode(value);
      query := query[k := Values(query, k) + [v]];
      assert parts[i..][1..] == parts[i + 1..];
      i := i + 1;
    }
  }

  method ParsePath(route: string, path: string) returns (r: Option<Route>)
    ensures r == Parse(route, path)
  {
    var current := if path == "" then "/" else path;
    var (head, text) := SplitOnce(current, '?').GetOr((current, ""));
    var query := ParseQuery(text);
    var routeSegments := SplitPath(route);
    var pathSegments := SplitPath(head);
    var index := WildcardIndex(routeSegments);
    var matched, params, wildcard := false, map[], None;
    if index < |routeSegments| {
      var cut := Smaller(index, |pathSegments|);
      wildcard := Some(Join(pathSegments[cut..], '/'));
      matched, params := MatchAll(routeSegments[..index], pathSegments[..cut]);
    } else if |routeSegments| == |pathSegments| {
      matched, params := MatchAll(routeSegments, pathSegments);
    }
    return if matched then Some(Route(params, query, wildcard)) else None;
  }
}
