/** Valid route declarations, and building and reading back an address. */
module RouteTrip {
  import opened Json
  import opened Texts
  import opened RouteSpec
  import opened RouteLaws
  import Percent

  // ---------- declarations ----------

  function PieceOf(segment: Segment): string {
    match segment
    case Star => "*"
    case Param(key) => ":" + key
    case Literal(text) => text
  }

  /** A segment as a valid declaration can have it. */
  predicate Proper(segment: Segment) {
    match segment
    case Star => true
    case Param(key) => IsName(key)
    case Literal(text) => forall c <- text :: c != '/' && c != '?' && c != '*' && c != ':'
  }

  predicate Distinct(keys: seq<string>) {
    forall i, j :: 0 <= i < j < |keys| ==> keys[i] != keys[j]
  }

  /** A declaration is valid if it can be read as segments with distinct names and at most one wildcard, each
      taking a whole piece. */
  predicate Reads(segments: seq<Segment>, pieces: seq<string>) {
    && |segments| == |pieces|
    && (forall i :: 0 <= i < |segments| ==> Proper(segments[i]) && pieces[i] == PieceOf(segments[i]))
    && Distinct(KeysOf(segments))
  }

  lemma PieceRead(piece: string, keys: seq<string>, segment: Segment)
    requires forall c <- piece :: c != '/' && c != '?'
    ensures ParsePiece(piece, keys) == Ok(segment)
       <==> Proper(segment) && piece == PieceOf(segment) && forall k <- KeyOf(segment) :: k !in keys
  {
    match segment
    case Star =>
    case Param(key) =>
      if piece == PieceOf(segment) {
        assert piece[1..] == key && piece[0] == ':';
        if IsName(key) { NameHasNoStar(key); }
      } else if piece != "" && piece[0] == ':' {
        assert piece == ":" + piece[1..];
      }
    case Literal(text) =>
      assert "*"[0] in "*";
      if piece != "" { assert piece[0] in piece; }
  }

  lemma NameHasNoStar(key: string)
    requires IsName(key)
    ensures '*' !in ":" + key && key != "*" && key != ""
  {}

  lemma KeysOfCons(segments: seq<Segment>)
    requires segments != []
    ensures KeysOf(segments) == KeyOf(segments[0]) + KeysOf(segments[1..])
  {}

  predicate Avoids(keys: seq<string>, others: seq<string>) {
    forall k <- keys :: k !in others
  }

  /** Reading a list of pieces after some keys: succeeds with exactly the proper reading, if there is one. */
  lemma {:induction false} PiecesRead(pieces: seq<string>, keys: seq<string>, segments: seq<Segment>)
    requires forall p <- pieces :: '/' !in p && '?' !in p
    ensures ParsePieces(pieces, keys) == Ok(segments) <==> Reads(segments, pieces) && Avoids(KeysOf(segments), keys)
    decreases |pieces|
  {
    if pieces == [] {
      assert KeysOf([]) == [];
    } else if segments != [] {
      assert pieces[0] in pieces;
      forall s: Segment
        ensures ParsePiece(pieces[0], keys) == Ok(s)
           <==> Proper(s) && pieces[0] == PieceOf(s) && forall k <- KeyOf(s) :: k !in keys
      {
        PieceRead(pieces[0], keys, s);
      }
      PiecesRead(pieces[1..], keys + KeyOf(segments[0]), segments[1..]);
      ReadsCons(segments, pieces, keys);
      assert segments == [segments[0]] + segments[1..];
    }
  }

  lemma ReadsCons(segments: seq<Segment>, pieces: seq<string>, keys: seq<string>)
    requires segments != [] && pieces != []
    ensures Reads(segments, pieces) && Avoids(KeysOf(segments), keys)
       <==> Proper(segments[0]) && pieces[0] == PieceOf(segments[0]) && Avoids(KeyOf(segments[0]), keys)
            && Reads(segments[1..], pieces[1..]) && Avoids(KeysOf(segments[1..]), keys + KeyOf(segments[0]))
  {
    var first, rest := KeyOf(segments[0]), KeysOf(segments[1..]);
    var all := first + rest;
    assert KeysOf(segments) == all;
    DistinctCons(first, rest);
    AvoidsSum(first, rest, keys);
    if |segments| == |pieces| {
      assert (forall i :: 0 <= i < |segments| ==> Proper(segments[i]) && pieces[i] == PieceOf(segments[i]))
        <==> Proper(segments[0]) && pieces[0] == PieceOf(segments[0])
             && (forall i :: 0 <= i < |segments[1..]| ==>
                   Proper(segments[1..][i]) && pieces[1..][i] == PieceOf(segments[1..][i])) by { ProperCons(segments, pieces); }
    }
  }

  lemma ProperCons(segments: seq<Segment>, pieces: seq<string>)
    requires segments != [] && |segments| == |pieces|
    ensures (forall i :: 0 <= i < |segments| ==> Proper(segments[i]) && pieces[i] == PieceOf(segments[i]))
       <==> Proper(segments[0]) && pieces[0] == PieceOf(segments[0])
            && (forall i :: 0 <= i < |segments[1..]| ==>
                  Proper(segments[1..][i]) && pieces[1..][i] == PieceOf(segments[1..][i]))
  {
    if forall i :: 0 <= i < |segments[1..]| ==> Proper(segments[1..][i]) && pieces[1..][i] == PieceOf(segments[1..][i]) {
      forall i | 1 <= i < |segments| ensures Proper(segments[i]) && pieces[i] == PieceOf(segments[i]) {
        assert segments[1..][i - 1] == segments[i] && pieces[1..][i - 1] == pieces[i];
      }
    }
  }

  lemma DistinctCons(first: seq<string>, rest: seq<string>)
    requires |first| <= 1
    ensures Distinct(first + rest) <==> Distinct(rest) && Avoids(rest, first)
  {
    var all := first + rest;
    if Distinct(all) {
      forall i, j | 0 <= i < j < |rest| ensures rest[i] != rest[j] {
        assert all[|first| + i] != all[|first| + j];
      }
      forall k | k in rest ensures k !in first {
        var i :| 0 <= i < |rest| && rest[i] == k;
        if first != [] { assert all[0] != all[|first| + i]; }
      }
    }
    if Distinct(rest) && Avoids(rest, first) {
      forall i, j | 0 <= i < j < |all| ensures all[i] != all[j] {
        assert all[j] == rest[j - |first|];
        if i >= |first| { assert all[i] == rest[i - |first|]; } else { assert rest[j - |first|] in rest; }
      }
    }
  }

  lemma AvoidsSum(first: seq<string>, rest: seq<string>, keys: seq<string>)
    ensures Avoids(first + rest, keys) && Avoids(rest, first) <==> Avoids(first, keys) && Avoids(rest, keys + first)
  {}

  lemma {:induction false} SplitHasNo(s: string, c: char, d: char)
    requires d !in s
    ensures forall p <- Split(s, c) :: d !in p
    decreases |s|
  {
    var n := Until(s, c);
    if n < |s| { SplitHasNo(s[n + 1..], c, d); }
  }

  /** A declaration is accepted exactly if it has no '?' and its pieces can be read properly; the segments it
      yields are that reading. */
  lemma ValidExactly(route: string, segments: seq<Segment>)
    ensures ParseSegments(route) == Ok(segments) <==> '?' !in route && Reads(segments, Split(route, '/'))
  {
    if '?' !in route {
      SplitHasNo(route, '/', '?');
      SplitPieces(route, '/');
      PiecesRead(Split(route, '/'), [], segments);
    }
  }

  // ---------- building ----------

  predicate HasValue(key: string, params: map<string, string>) {
    key in params && params[key] != ""
  }

  predicate HasValues(segments: seq<Segment>, params: map<string, string>) {
    forall k <- KeysOf(segments) :: HasValue(k, params)
  }

  /** The text that a segment becomes. */
  function Filled(segment: Segment, params: map<string, string>): string
    requires forall k <- KeyOf(segment) :: HasValue(k, params)
  {
    match segment
    case Star => assert "*" in KeyOf(segment) && HasValue("*", params); Strip(params["*"])
    case Param(key) => assert key in KeyOf(segment) && HasValue(key, params); Percent.Encode(params[key])
    case Literal(text) => text
  }

  lemma KeyIn(segments: seq<Segment>, i: nat)
    requires i < |segments|
    ensures forall k <- KeyOf(segments[i]) :: k in KeysOf(segments)
  {
    if i > 0 { KeyIn(segments[1..], i - 1); }
  }

  function Fillings(segments: seq<Segment>, params: map<string, string>): (values: seq<string>)
    requires HasValues(segments, params)
    ensures |values| == |segments|
    decreases |segments|
  {
    if segments == [] then []
    else [Filled(segments[0], params)] + Fillings(segments[1..], params)
  }

  lemma {:induction false} FillingAt(segments: seq<Segment>, params: map<string, string>, i: nat)
    requires HasValues(segments, params) && i < |segments|
    ensures forall k <- KeyOf(segments[i]) :: HasValue(k, params)
    ensures Fillings(segments, params)[i] == Filled(segments[i], params)
    decreases |segments|
  {
    KeyIn(segments, i);
    if i > 0 { FillingAt(segments[1..], params, i - 1); }
  }

  lemma PieceBuilt(segment: Segment, params: map<string, string>)
    requires Proper(segment)
    ensures BuildPiece(PieceOf(segment), params).Ok? <==> forall k <- KeyOf(segment) :: HasValue(k, params)
    ensures (forall k <- KeyOf(segment) :: HasValue(k, params)) ==>
              BuildPiece(PieceOf(segment), params) == Ok(Filled(segment, params))
  {
    match segment
    case Star =>
      assert (forall k <- KeyOf(segment) :: HasValue(k, params)) <==> HasValue("*", params) by {
        assert "*" in KeyOf(segment);
      }
    case Param(key) =>
      NameHasNoStar(key);
      assert PieceOf(segment)[1..] == key && PieceOf(segment)[0] == ':';
      assert KeyOf(segment) == [key];
      assert (forall k <- KeyOf(segment) :: HasValue(k, params)) <==> HasValue(key, params) by {
        assert key in KeyOf(segment);
      }
      assert BuildPiece(PieceOf(segment), params) ==
             if !HasValue(key, params) then Err(MissingValue(key)) else Ok(Percent.Encode(params[key]));
    case Literal(text) =>
      assert "*"[0] in "*";
      if text != "" { assert text[0] in text; }
  }

  lemma {:induction false} PiecesBuilt(segments: seq<Segment>, pieces: seq<string>, params: map<string, string>)
    requires |segments| == |pieces|
    requires forall i :: 0 <= i < |segments| ==> Proper(segments[i]) && pieces[i] == PieceOf(segments[i])
    ensures BuildPieces(pieces, params).Ok? <==> HasValues(segments, params)
    ensures HasValues(segments, params) ==> BuildPieces(pieces, params) == Ok(Fillings(segments, params))
    decreases |segments|
  {
    if segments != [] {
      assert Proper(segments[0]) && pieces[0] == PieceOf(segments[0]);
      PieceBuilt(segments[0], params);
      ProperCons(segments, pieces);
      PiecesBuilt(segments[1..], pieces[1..], params);
    }
  }

  /** An address can be built exactly if every name of the route has a value that is not empty. */
  lemma BuildsExactly(route: string, segments: seq<Segment>, params: map<string, string>)
    requires ParseSegments(route) == Ok(segments)
    ensures Build(route, params).Ok? <==> HasValues(segments, params)
    ensures HasValues(segments, params) ==> Build(route, params) == Ok(Join(Fillings(segments, params), '/'))
  {
    ValidExactly(route, segments);
    PiecesBuilt(segments, Split(route, '/'), params);
  }

  // ---------- reading back ----------

  lemma ProperIsWellFormed(segments: seq<Segment>, pieces: seq<string>)
    requires Reads(segments, pieces)
    ensures WellFormed(segments)
  {
    forall i, j | 0 <= i < j < |segments| ensures !(segments[i].Star? && segments[j].Star?) {
      if segments[i].Star? && segments[j].Star? { TwoStars(segments, i, j); }
    }
    forall i | 0 <= i < |segments| && segments[i].Literal? ensures '/' !in segments[i].text && '?' !in segments[i].text {
      assert Proper(segments[i]);
    }
  }

  lemma {:induction false} TwoStars(segments: seq<Segment>, i: nat, j: nat)
    requires i < j < |segments| && segments[i].Star? && segments[j].Star?
    ensures !Distinct(KeysOf(segments))
    decreases |segments|
  {
    var first, rest := KeyOf(segments[0]), KeysOf(segments[1..]);
    DistinctCons(first, rest);
    if i == 0 {
      KeyIn(segments[1..], j - 1);
      assert "*" in KeyOf(segments[j]);
      assert "*" in rest && "*" in first;
    } else {
      TwoStars(segments[1..], i - 1, j - 1);
    }
  }

  lemma FilledFits(segment: Segment, params: map<string, string>)
    requires Proper(segment) && forall k <- KeyOf(segment) :: HasValue(k, params)
    ensures FitsLoosely(segment, Filled(segment, params))
    ensures !segment.Star? ==> '?' !in Filled(segment, params)
  {
    if segment.Param? {
      assert segment.key in KeyOf(segment);
      Percent.EncodedIsSafe(params[segment.key]);
    }
  }

  lemma FillingsFit(segments: seq<Segment>, params: map<string, string>)
    requires HasValues(segments, params) && forall i :: 0 <= i < |segments| ==> Proper(segments[i])
    ensures AllFitLoosely(segments, Fillings(segments, params))
  {
    forall i | 0 <= i < |segments| ensures FitsLoosely(segments[i], Fillings(segments, params)[i]) {
      FillingAt(segments, params, i);
      FilledFits(segments[i], params);
    }
  }

  /** What the reader should find under a key. */
  function Expected(key: string, params: map<string, string>): string
    requires key in params
  {
    if key == "*" then Collapse("/" + params[key]) else params[key]
  }

  function ExpectedParams(segments: seq<Segment>, params: map<string, string>): map<string, string>
    requires HasValues(segments, params)
  {
    map k | k in KeysOf(segments) :: Expected(k, params)
  }

  lemma {:induction false} CollapseStripped(w: string)
    ensures Collapse("/" + Strip(w)) == Collapse("/" + w)
  {
    if w != "" && w[0] == '/' {
      CollapseStripped(w[1..]);
      assert ("/" + w)[1..] == w && w == "/" + w[1..];
    }
  }

  lemma ReadBack(segment: Segment, params: map<string, string>)
    requires Proper(segment) && !segment.Literal? && forall k <- KeyOf(segment) :: HasValue(k, params)
    ensures KeyOf(segment)[0] in params
    ensures ParamValue(segment, Filled(segment, params)) == Some(Expected(KeyOf(segment)[0], params))
  {
    assert KeyOf(segment)[0] in KeyOf(segment);
    if segment.Star? {
      CollapseStripped(params["*"]);
    } else {
      NameHasNoStar(segment.key);
      Percent.PercentRoundTrip(params[segment.key]);
    }
  }

  /** A collection in progress holds expected values only, and never the one name that cannot be assigned. */
  ghost predicate Partial(result: map<string, string>, done: set<string>, params: map<string, string>) {
    && (forall k :: k in result <==> k in done && k != PROTO)
    && (forall k <- result :: k in params && result[k] == Expected(k, params))
  }

  function Members(keys: seq<string>): set<string> {
    set k | k in keys
  }

  lemma {:induction false} CollectsExpected(segments: seq<Segment>, params: map<string, string>,
                                            result: map<string, string>, done: set<string>)
    requires HasValues(segments, params) && forall i :: 0 <= i < |segments| ==> Proper(segments[i])
    requires Partial(result, done, params)
    ensures var c := Collect(segments, Fillings(segments, params), result);
            c.Some? && Partial(c.value, done + Members(KeysOf(segments)), params)
    decreases |segments|
  {
    if segments != [] {
      var s, values := segments[0], Fillings(segments, params);
      assert Proper(s);
      KeysOfCons(segments);
      forall i | 0 <= i < |segments| - 1 ensures Proper(segments[1..][i]) { assert Proper(segments[i + 1]); }
      assert values[1..] == Fillings(segments[1..], params);
      assert Members(KeysOf(segments)) == Members(KeyOf(s)) + Members(KeysOf(segments[1..]));
      if s.Literal? {
        CollectsExpected(segments[1..], params, result, done);
        assert done + Members(KeysOf(segments)) == done + Members(KeysOf(segments[1..]));
      } else {
        KeyIn(segments, 0);
        ReadBack(s, params);
        var key := KeyOf(s)[0];
        var next := Assign(result, key, Expected(key, params));
        assert key in KeyOf(s) && Members(KeyOf(s)) == {key};
        CollectsExpected(segments[1..], params, next, done + {key});
        assert done + Members(KeysOf(segments)) == done + {key} + Members(KeysOf(segments[1..]));
      }
    } else {
      assert done + Members(KeysOf(segments)) == done;
    }
  }

  lemma {:induction false} JoinHasNo(values: seq<string>, c: char)
    requires c != '/' && values != []
    ensures c !in Join(values, '/') <==> forall v <- values :: c !in v
  {
    if |values| > 1 {
      JoinHasNo(values[1..], c);
      assert forall v :: v in values <==> v == values[0] || v in values[1..];
    } else {
      assert values == [values[0]];
    }
  }

  lemma SplitWithout(s: string, c: char)
    requires c !in s
    ensures Split(s, c) == [s]
  {
    UntilNone(s, c);
  }

  /** A wildcard value that survives: no '?', which would end the path, and no line end, which `.` does not match. */
  predicate Readable(w: string) {
    forall c <- w :: c != '?' && !LineEnd(c)
  }

  predicate WildcardReadable(segments: seq<Segment>, params: map<string, string>)
    requires HasValues(segments, params)
  {
    "*" in KeysOf(segments) ==> Readable(params["*"])
  }

  /** What is written for a wildcard is its value without the slashes in front. */
  lemma {:induction false} StrippedExactly(w: string)
    ensures |Strip(w)| <= |w| && w[|w| - |Strip(w)|..] == Strip(w)
    ensures forall i :: 0 <= i < |w| - |Strip(w)| ==> w[i] == '/'
    ensures Strip(w) != "" ==> Strip(w)[0] != '/'
  {
    if w != "" && w[0] == '/' {
      StrippedExactly(w[1..]);
      forall i | 1 <= i < |w| - |Strip(w)| ensures w[i] == '/' { assert w[1..][i - 1] == '/'; }
    }
  }

  lemma {:induction false} StripMembers(w: string)
    ensures forall c | c != '/' :: c in Strip(w) <==> c in w
  {
    if w != "" && w[0] == '/' { StripMembers(w[1..]); }
  }

  lemma {:induction false} CollapseMembers(w: string)
    ensures forall c :: c in Collapse(w) <==> c in w
  {
    if w != "" { CollapseMembers(w[1..]); }
  }

  lemma {:induction false} StarKey(segments: seq<Segment>)
    requires forall i :: 0 <= i < |segments| ==> Proper(segments[i])
    ensures "*" in KeysOf(segments) <==> exists i :: 0 <= i < |segments| && segments[i].Star?
    decreases |segments|
  {
    if segments != [] {
      var rest := segments[1..];
      forall i | 0 <= i < |rest| ensures Proper(rest[i]) { assert Proper(segments[i + 1]); }
      StarKey(rest);
      assert Proper(segments[0]);
      if segments[0].Param? { NameHasNoStar(segments[0].key); }
      if exists i :: 0 <= i < |rest| && rest[i].Star? {
        var i :| 0 <= i < |rest| && rest[i].Star?;
        assert segments[i + 1].Star?;
      }
      if exists i :: 0 < i < |segments| && segments[i].Star? {
        var i :| 0 < i < |segments| && segments[i].Star?;
        assert rest[i - 1].Star?;
      }
    }
  }

  lemma {:induction false} StarFilled(segments: seq<Segment>, params: map<string, string>) returns (i: nat)
    requires HasValues(segments, params) && "*" in KeysOf(segments)
    requires forall i :: 0 <= i < |segments| ==> Proper(segments[i])
    ensures i < |segments| && segments[i].Star? && "*" in params && Fillings(segments, params)[i] == Strip(params["*"])
  {
    StarKey(segments);
    i :| 0 <= i < |segments| && segments[i].Star?;
    FillingAt(segments, params, i);
    assert "*" in KeyOf(segments[i]) && HasValue("*", params);
  }

  /** The built path has a '?' just if the wildcard brings one in. */
  lemma PathHasQuery(segments: seq<Segment>, params: map<string, string>)
    requires HasValues(segments, params) && segments != [] && forall i :: 0 <= i < |segments| ==> Proper(segments[i])
    ensures '?' in Join(Fillings(segments, params), '/') <==> "*" in KeysOf(segments) && '?' in params["*"]
  {
    var values := Fillings(segments, params);
    JoinHasNo(values, '?');
    if "*" in KeysOf(segments) {
      var i := StarFilled(segments, params);
      StripMembers(params["*"]);
      if '?' in params["*"] { assert '?' in values[i]; }
    }
    forall i | 0 <= i < |segments| && !("*" in KeysOf(segments) && '?' in params["*"]) ensures '?' !in values[i] {
      FillingAt(segments, params, i);
      FilledFits(segments[i], params);
      if segments[i].Star? {
        assert "*" in KeyOf(segments[i]);
        KeyIn(segments, i);
        StripMembers(params["*"]);
      }
    }
  }

  /** The built values are ones the pattern matches just if the wildcard has no line end. */
  lemma FillingsFitExactly(segments: seq<Segment>, params: map<string, string>)
    requires HasValues(segments, params) && forall i :: 0 <= i < |segments| ==> Proper(segments[i])
    ensures AllFit(segments, Fillings(segments, params))
       <==> ("*" in KeysOf(segments) ==> forall c <- params["*"] :: !LineEnd(c))
  {
    var values := Fillings(segments, params);
    FillingsFit(segments, params);
    if "*" in KeysOf(segments) {
      var i := StarFilled(segments, params);
      StripMembers(params["*"]);
      if AllFit(segments, values) {
        assert Fits(segments[i], values[i]);
      }
    }
    if "*" in KeysOf(segments) ==> forall c <- params["*"] :: !LineEnd(c) {
      forall i | 0 <= i < |segments| ensures Fits(segments[i], values[i]) {
        assert FitsLoosely(segments[i], values[i]);
        if segments[i].Star? {
          FillingAt(segments, params, i);
          assert "*" in KeyOf(segments[i]);
          KeyIn(segments, i);
          StripMembers(params["*"]);
        }
      }
    }
  }

  /** Matching the built path gives the filled values back, or nothing. */
  lemma MatchesFillings(segments: seq<Segment>, params: map<string, string>)
    requires HasValues(segments, params) && segments != [] && WellFormed(segments)
    requires forall i :: 0 <= i < |segments| ==> Proper(segments[i])
    ensures var values := Fillings(segments, params);
            Match(segments, Join(values, '/')) == if AllFit(segments, values) then Some(values) else None
  {
    var values := Fillings(segments, params);
    var path := Join(values, '/');
    MatchIsFilling(segments, path, values);
    if Match(segments, path).Some? {
      var found := Match(segments, path).value;
      MatchIsFilling(segments, path, found);
      Loosely(segments, found);
      FillingsFit(segments, params);
      OnlyOneFilling(segments, found, values);
    }
  }

  // ---------- what cannot be read back ----------

  lemma {:induction false} CollectLacksProto(segments: seq<Segment>, values: seq<string>, result: map<string, string>)
    requires |segments| == |values| && PROTO !in result
    ensures var c := Collect(segments, values, result); c.Some? ==> PROTO !in c.value
    decreases |segments|
  {
    if segments != [] {
      if segments[0].Literal? {
        CollectLacksProto(segments[1..], values[1..], result);
      } else if ParamValue(segments[0], values[0]).Some? {
        CollectLacksProto(segments[1..], values[1..],
                          Assign(result, KeyOf(segments[0])[0], ParamValue(segments[0], values[0]).value));
      }
    }
  }

  predicate StarLacksQuery(result: map<string, string>) {
    "*" in result ==> '?' !in result["*"]
  }

  lemma {:induction false} CollectLacksQuery(segments: seq<Segment>, values: seq<string>, result: map<string, string>)
    requires |segments| == |values| && StarLacksQuery(result)
    requires forall i :: 0 <= i < |segments| ==> Proper(segments[i])
    requires forall v <- values :: '?' !in v
    ensures var c := Collect(segments, values, result); c.Some? ==> StarLacksQuery(c.value)
    decreases |segments|
  {
    if segments != [] {
      assert Proper(segments[0]) && values[0] in values;
      forall i | 0 <= i < |segments| - 1 ensures Proper(segments[1..][i]) { assert Proper(segments[i + 1]); }
      if segments[0].Literal? {
        CollectLacksQuery(segments[1..], values[1..], result);
      } else if ParamValue(segments[0], values[0]).Some? {
        CollapseMembers("/" + values[0]);
        if segments[0].Param? { NameHasNoStar(segments[0].key); }
        CollectLacksQuery(segments[1..], values[1..],
                          Assign(result, KeyOf(segments[0])[0], ParamValue(segments[0], values[0]).value));
      }
    }
  }

  /** The values a pattern finds in a path without '?' have none. */
  lemma MatchedLacksQuery(segments: seq<Segment>, path: string)
    requires segments != [] && '?' !in path && Match(segments, path).Some?
    ensures forall v <- Match(segments, path).value :: '?' !in v
  {
    MatchSound(segments, path);
    JoinHasNo(Match(segments, path).value, '?');
  }

  // ---------- the round trip ----------

  /** Everything but the name that cannot be assigned comes back from a readable address. */
  lemma ReadsBack(route: string, segments: seq<Segment>, params: map<string, string>)
    requires ParseSegments(route) == Ok(segments) && segments != [] && HasValues(segments, params)
    requires WildcardReadable(segments, params)
    ensures Parse(route, Join(Fillings(segments, params), '/')) == Params(ExpectedParams(segments, params) - {PROTO}, "")
  {
    ValidExactly(route, segments);
    ProperIsWellFormed(segments, Split(route, '/'));
    var values := Fillings(segments, params);
    var path := Join(values, '/');
    PathHasQuery(segments, params);
    SplitWithout(path, '?');
    FillingsFitExactly(segments, params);
    MatchesFillings(segments, params);
    CollectsExpected(segments, params, map[], {});
    var c := Collect(segments, values, map[]).value;
    assert {} + Members(KeysOf(segments)) == Members(KeysOf(segments));
    assert c == ExpectedParams(segments, params) - {PROTO};
  }

  /** From an address with an unreadable wildcard the expected parameters do not come back. */
  lemma UnreadableLost(route: string, segments: seq<Segment>, params: map<string, string>)
    requires ParseSegments(route) == Ok(segments) && segments != [] && HasValues(segments, params)
    requires !WildcardReadable(segments, params)
    ensures Parse(route, Join(Fillings(segments, params), '/')) != Params(ExpectedParams(segments, params), "")
  {
    ValidExactly(route, segments);
    ProperIsWellFormed(segments, Split(route, '/'));
    var path := Join(Fillings(segments, params), '/');
    PathHasQuery(segments, params);
    if '?' in params["*"] {
      var head := Split(path, '?')[0];
      SplitPieces(path, '?');
      assert head in Split(path, '?');
      if Match(segments, head).Some? {
        MatchedLacksQuery(segments, head);
        MatchLength(segments, head);
        CollectLacksQuery(segments, Match(segments, head).value, map[]);
        CollapseMembers("/" + params["*"]);
        assert '?' in ExpectedParams(segments, params)["*"];
      }
    } else {
      SplitWithout(path, '?');
      FillingsFitExactly(segments, params);
      MatchesFillings(segments, params);
    }
  }

  lemma ProtoLost(route: string, segments: seq<Segment>, params: map<string, string>)
    requires ParseSegments(route) == Ok(segments) && segments != [] && HasValues(segments, params)
    requires PROTO in KeysOf(segments)
    ensures Parse(route, Join(Fillings(segments, params), '/')) != Params(ExpectedParams(segments, params), "")
  {
    var head := Split(Join(Fillings(segments, params), '/'), '?')[0];
    if Match(segments, head).Some? {
      MatchLength(segments, head);
      CollectLacksProto(segments, Match(segments, head).value, map[]);
      assert PROTO in ExpectedParams(segments, params);
    }
  }

  /** For every valid route and all non-empty values, reading the built address gives every parameter as it was
      and the wildcard with its slashes collapsed, if and only if no parameter is named like the one property
      that cannot be assigned, and the wildcard has no '?' and no line end. */
  lemma RouteRoundTrip(route: string, segments: seq<Segment>, params: map<string, string>)
    requires ParseSegments(route) == Ok(segments) && HasValues(segments, params)
    ensures Build(route, params).Ok?
    ensures Parse(route, Build(route, params).value) == Params(ExpectedParams(segments, params), "")
       <==> PROTO !in KeysOf(segments) && WildcardReadable(segments, params)
  {
    BuildsExactly(route, segments, params);
    ValidExactly(route, segments);
    if PROTO in KeysOf(segments) {
      ProtoLost(route, segments, params);
    } else if WildcardReadable(segments, params) {
      ReadsBack(route, segments, params);
      assert ExpectedParams(segments, params) - {PROTO} == ExpectedParams(segments, params);
    } else {
      UnreadableLost(route, segments, params);
    }
  }

  /** What is matched ends at the first '?'; the text behind it is given back up to another one, which is all of it if
      and only if it has none. */
  lemma QueryKept(route: string, address: string, text: string)
    requires '?' !in address
    ensures
      var bare, full := Parse(route, address), Parse(route, address + "?" + text);
      && (!bare.Params? ==> full == bare)
      && (bare.Params? ==> full.Params? && full.params == bare.params && bare.query == ""
                           && (full.query == text <==> '?' !in text))
  {
    SplitWithout(address, '?');
    SplitHead(address, '?', text);
    assert address + ['?'] + text == address + "?" + text;
    SplitPieces(text, '?');
    if '?' !in text { SplitWithout(text, '?'); } else { assert Split(text, '?')[0] in Split(text, '?'); }
  }

  /** A query text added to a built address comes back with the parameters if and only if it has no '?'. */
  lemma BuiltWithQuery(route: string, segments: seq<Segment>, params: map<string, string>, text: string)
    requires ParseSegments(route) == Ok(segments) && HasValues(segments, params)
    requires PROTO !in KeysOf(segments) && WildcardReadable(segments, params)
    ensures Build(route, params).Ok?
    ensures Parse(route, Build(route, params).value + "?" + text) == Params(ExpectedParams(segments, params), text)
       <==> '?' !in text
  {
    RouteRoundTrip(route, segments, params);
    BuildsExactly(route, segments, params);
    ValidExactly(route, segments);
    PathHasQuery(segments, params);
    QueryKept(route, Build(route, params).value, text);
  }

  // ---------- three parameters that do not come back ----------

  /** The route of one parameter or of one wildcard. */
  lemma OneSegment(segment: Segment, params: map<string, string>)
    requires Proper(segment) && !segment.Literal? && HasValue(KeyOf(segment)[0], params)
    ensures ParseSegments(PieceOf(segment)) == Ok([segment])
    ensures KeysOf([segment]) == KeyOf(segment) && HasValues([segment], params)
    ensures ExpectedParams([segment], params) == map[KeyOf(segment)[0] := Expected(KeyOf(segment)[0], params)]
  {
    var route := PieceOf(segment);
    assert [segment][1..] == [];
    assert KeysOf([segment]) == KeyOf(segment) + KeysOf([]);
    if segment.Param? { NameIsPlain(segment.key); }
    UntilNone(route, '/');
    assert Split(route, '/') == [route];
    ValidExactly(route, [segment]);
  }

  lemma NameIsPlain(key: string)
    requires IsName(key)
    ensures '/' !in ":" + key && '?' !in ":" + key
  {}

  /** A parameter named `__proto__` is not read back. */
  lemma ProtoNotRead(value: string)
    requires value != ""
    ensures var route, params := ":" + PROTO, map[PROTO := value];
            Build(route, params).Ok? && Parse(route, Build(route, params).value) != Params(params, "")
  {
    var params := map[PROTO := value];
    OneSegment(Param(PROTO), params);
    RouteRoundTrip(":" + PROTO, [Param(PROTO)], params);
  }

  /** A wildcard value that an address keeps as it is, but for what follows its slash. */
  lemma OneCharacter(c: char)
    requires c != '/'
    ensures Collapse("/" + ("/" + [c])) == "/" + [c]
  {
    var s, t := "/" + ("/" + [c]), "/" + [c];
    assert s[1..] == t && t[1..] == [c] && [c][1..] == "";
    assert Collapse([c]) == [c];
    assert Collapse(t) == "/" + Collapse([c]);
  }

  /** A wildcard with a question mark, or with one of the four line ends of ECMAScript, is not read back. */
  lemma WildcardNotRead(c: char)
    requires c in {'?', '\n', '\r', '\U{2028}', '\U{2029}'}
    ensures var params := map["*" := "/" + [c]];
            Build("*", params).Ok? && Parse("*", Build("*", params).value) != Params(params, "")
  {
    var params := map["*" := "/" + [c]];
    OneSegment(Star, params);
    OneCharacter(c);
    assert c in params["*"];
    RouteRoundTrip("*", [Star], params);
  }
}
