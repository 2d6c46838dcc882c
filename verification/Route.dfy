/** The route functions that fill lists and objects as they go, each equal to its specification. */
module Route {
  import opened Json
  import opened Texts
  import opened RouteSpec

  method ParseSegments(route: string) returns (r: Result<seq<Segment>>, keys: seq<string>)
    ensures r == RouteSpec.ParseSegments(route)
    ensures r.Ok? ==> keys == KeysOf(r.value)
  {
    keys := [];
    if '?' in route { return Err(QueryInRoute), keys; }
    var pieces := Split(route, '/');
    var segments: seq<Segment> := [];
    var i := 0;
    AfterNone(ParsePieces(pieces, keys));
    assert pieces[0..] == pieces;
    while i < |pieces|
      invariant i <= |pieces| && keys == KeysOf(segments)
      invariant ParsePieces(pieces, []) == After(segments, ParsePieces(pieces[i..], keys))
    {
      match ParsePiece(pieces[i], keys)
      case Err(e) => return Err(e), keys;
      case Ok(segment) =>
        KeysOfAppend(segments, segment);
        AfterOne(segments, segment, ParsePieces(pieces[i + 1..], keys + KeyOf(segment)));
        segments := segments + [segment];
        keys := keys + KeyOf(segment);
      i := i + 1;
    }
    assert segments + [] == segments;
    return Ok(segments), keys;
  }

  /** A result with the segments read before. */
  function After(segments: seq<Segment>, r: Result<seq<Segment>>): Result<seq<Segment>> {
    match r
    case Err(e) => Err(e)
    case Ok(rest) => Ok(segments + rest)
  }

  lemma AfterNone(r: Result<seq<Segment>>)
    ensures After([], r) == r
  {
    if r.Ok? { assert [] + r.value == r.value; }
  }

  lemma AfterOne(segments: seq<Segment>, segment: Segment, r: Result<seq<Segment>>)
    ensures After(segments, After([segment], r)) == After(segments + [segment], r)
  {
    if r.Ok? { assert segments + ([segment] + r.value) == segments + [segment] + r.value; }
  }

  lemma {:induction false} KeysOfAppend(segments: seq<Segment>, last: Segment)
    ensures KeysOf(segments + [last]) == KeysOf(segments) + KeyOf(last)
  {
    if segments == [] {
      assert KeysOf([last]) == KeyOf(last) + KeysOf([]);
    } else {
      assert (segments + [last])[1..] == segments[1..] + [last];
      KeysOfAppend(segments[1..], last);
    }
  }

  method ParsePondRoute(route: string, address: string) returns (r: Parsed)
    ensures r == Parse(route, address)
  {
    var compiled, keys := ParseSegments(route);
    if compiled.Err? { return Invalid(compiled.error); }
    var segments := compiled.value;
    if segments == [] { return NoMatch; }
    var parts := Split(address, '?');
    var matched := Match(segments, parts[0]);
    if matched.None? { return NoMatch; }
    var values := matched.value;
    MatchLength(segments, parts[0]);
    var result: map<string, string> := map[];
    var i := 0;
    while i < |segments|
      invariant i <= |segments| == |values|
      invariant Collect(segments, values, map[]) == Collect(segments[i..], values[i..], result)
    {
      if !segments[i].Literal? {
        var value := ParamValue(segments[i], values[i]);
        if value.None? { return BadEncoding; }
        result := Assign(result, KeyOf(segments[i])[0], value.value);
      }
      assert segments[i..][1..] == segments[i + 1..] && values[i..][1..] == values[i + 1..];
      i := i + 1;
    }
    return Params(result, if |parts| > 1 then parts[1] else "");
  }

  method BuildPondRoute(route: string, params: map<string, string>) returns (r: Result<string>)
    ensures r == Build(route, params)
  {
    var compiled, _ := ParseSegments(route);
    if compiled.Err? { return Err(compiled.error); }
    var built := BuildPieces(Split(route, '/'), params);
    match built
    case Err(e) => return Err(e);
    case Ok(values) => return Ok(Join(values, '/'));
  }
}
