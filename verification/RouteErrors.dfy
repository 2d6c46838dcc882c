/** Which error a route declaration and an address end in: that of the first piece, or of the first key, that is wrong. */
module RouteErrors {
  import opened Json
  import opened Texts
  import opened RouteSpec
  import opened RouteTrip
  import Percent

  /** A name starts with a letter or an underscore, and goes on with letters, underscores and digits. */
  lemma NamesSpelled(s: string)
    ensures IsName(s)
       <==> s != "" && s[0] in UPPER + LOWER + {'_'} && forall c <- s :: c in UPPER + LOWER + {'_'} + DIGITS
  {
    forall c | c in s
      ensures (c in UPPER + LOWER + {'_'} <==> NameStart(c)) && (c in DIGITS <==> '0' <= c <= '9')
    {
      Upper(c);
      Lower(c);
      Digits(c);
    }
    if s != "" { assert s[0] in s; }
  }

  // ---------- declarations ----------

  /** What is wrong with a piece after the keys of the pieces before it. */
  predicate Explains(e: RouteError, piece: string, keys: seq<string>) {
    match e
    case WildcardTwice => piece == "*" && "*" in keys
    case PartialWildcard => piece != "*" && '*' in piece
    case BadName => '*' !in piece && piece != "" && piece[0] == ':' && !IsName(piece[1..])
    case DuplicateName(key) => piece == ":" + key && IsName(key) && key in keys
    case PartialParam => '*' !in piece && ':' in piece && piece[0] != ':'
    case _ => false
  }

  lemma PieceExplained(piece: string, keys: seq<string>, e: RouteError)
    ensures ParsePiece(piece, keys) == Err(e) <==> Explains(e, piece, keys)
  {
    assert "*"[0] in "*";
    if piece != "" && piece[0] == ':' {
      assert piece == ":" + piece[1..];
      if IsName(piece[1..]) { NameHasNoStar(piece[1..]); }
    }
    if e.DuplicateName? && piece == ":" + e.key { assert piece[1..] == e.key; if IsName(e.key) { NameHasNoStar(e.key); } }
  }

  /** The pieces are good up to one that the error explains. */
  predicate FailsAfter(segments: seq<Segment>, pieces: seq<string>, keys: seq<string>, e: RouteError) {
    && |segments| < |pieces| && Reads(segments, pieces[..|segments|]) && Avoids(KeysOf(segments), keys)
    && Explains(e, pieces[|segments|], keys + KeysOf(segments))
  }

  ghost predicate Fails(pieces: seq<string>, keys: seq<string>, e: RouteError) {
    exists segments :: FailsAfter(segments, pieces, keys, e)
  }

  lemma FailsCons(segments: seq<Segment>, pieces: seq<string>, keys: seq<string>, e: RouteError)
    requires segments != [] && pieces != []
    ensures FailsAfter(segments, pieces, keys, e)
       <==> Proper(segments[0]) && pieces[0] == PieceOf(segments[0]) && Avoids(KeyOf(segments[0]), keys)
            && FailsAfter(segments[1..], pieces[1..], keys + KeyOf(segments[0]), e)
  {
    if |segments| < |pieces| {
      ReadsCons(segments, pieces[..|segments|], keys);
      assert pieces[..|segments|][1..] == pieces[1..][..|segments| - 1];
      KeysOfCons(segments);
      assert keys + KeysOf(segments) == keys + KeyOf(segments[0]) + KeysOf(segments[1..]);
    }
  }

  lemma {:induction false} PiecesFail(pieces: seq<string>, keys: seq<string>, e: RouteError)
    requires forall p <- pieces :: '/' !in p && '?' !in p
    ensures ParsePieces(pieces, keys) == Err(e) <==> Fails(pieces, keys, e)
    decreases |pieces|
  {
    if pieces != [] {
      PieceExplained(pieces[0], keys, e);
      assert pieces[0] in pieces;
      var first := ParsePiece(pieces[0], keys);
      if first.Ok? {
        PieceRead(pieces[0], keys, first.value);
        PiecesFail(pieces[1..], keys + KeyOf(first.value), e);
      }
      if ParsePieces(pieces, keys) == Err(e) { FailureFound(pieces, keys, e); }
      if Fails(pieces, keys, e) {
        var segments :| FailsAfter(segments, pieces, keys, e);
        if segments == [] {
          assert KeysOf([]) == [] && keys + [] == keys;
        } else {
          FailsCons(segments, pieces, keys, e);
          PieceRead(pieces[0], keys, segments[0]);
        }
      }
    }
  }

  lemma FailureFound(pieces: seq<string>, keys: seq<string>, e: RouteError)
    requires pieces != [] && '/' !in pieces[0] && '?' !in pieces[0] && ParsePieces(pieces, keys) == Err(e)
    requires var first := ParsePiece(pieces[0], keys);
             first.Ok? ==> Fails(pieces[1..], keys + KeyOf(first.value), e)
    ensures Fails(pieces, keys, e)
  {
    var first := ParsePiece(pieces[0], keys);
    if first.Ok? {
      PieceRead(pieces[0], keys, first.value);
      var segments :| FailsAfter(segments, pieces[1..], keys + KeyOf(first.value), e);
      var all := [first.value] + segments;
      assert all[1..] == segments;
      FailsCons(all, pieces, keys, e);
    } else {
      PieceExplained(pieces[0], keys, e);
      assert KeysOf([]) == [] && keys + [] == keys && FailsAfter([], pieces, keys, e);
    }
  }

  /** A declaration is refused for a '?' in it, or else for the first piece that cannot be read after those before it,
      and with the error that says what is wrong with that piece. */
  lemma FirstError(route: string, e: RouteError)
    ensures ParseSegments(route) == Err(e)
       <==> if '?' in route then e == QueryInRoute
            else Fails(Split(route, '/'), [], e)
  {
    if '?' !in route {
      SplitHasNo(route, '/', '?');
      SplitPieces(route, '/');
      PiecesFail(Split(route, '/'), [], e);
    }
  }

  // ---------- addresses ----------

  /** The first key without a value. */
  predicate FirstMissing(keys: seq<string>, params: map<string, string>, i: nat) {
    i < |keys| && !HasValue(keys[i], params) && forall j :: 0 <= j < i ==> HasValue(keys[j], params)
  }

  ghost predicate MissesOne(keys: seq<string>, params: map<string, string>, e: RouteError) {
    exists i: nat :: FirstMissing(keys, params, i) && e == MissingValue(keys[i])
  }

  lemma OneKey(key: string, params: map<string, string>, e: RouteError)
    ensures MissesOne([key], params, e) <==> !HasValue(key, params) && e == MissingValue(key)
  {
    if !HasValue(key, params) { assert FirstMissing([key], params, 0); }
  }

  lemma PieceMissing(segment: Segment, params: map<string, string>, e: RouteError)
    requires Proper(segment)
    ensures BuildPiece(PieceOf(segment), params) == Err(e) <==> MissesOne(KeyOf(segment), params, e)
  {
    PieceBuilt(segment, params);
    match segment
    case Star =>
      assert KeyOf(segment) == ["*"];
      OneKey("*", params, e);
    case Param(key) =>
      NameHasNoStar(key);
      assert PieceOf(segment)[1..] == key && PieceOf(segment)[0] == ':';
      assert BuildPiece(PieceOf(segment), params)
          == if !HasValue(key, params) then Err(MissingValue(key)) else Ok(Percent.Encode(params[key]));
      assert KeyOf(segment) == [key];
      OneKey(key, params, e);
    case Literal(_) =>
      assert BuildPiece(PieceOf(segment), params).Ok?;
  }

  lemma MissesCons(first: seq<string>, rest: seq<string>, params: map<string, string>, e: RouteError)
    requires |first| <= 1
    ensures MissesOne(first + rest, params, e)
       <==> MissesOne(first, params, e) || ((forall k <- first :: HasValue(k, params)) && MissesOne(rest, params, e))
  {
    var all := first + rest;
    if MissesOne(all, params, e) {
      var i: nat :| FirstMissing(all, params, i) && e == MissingValue(all[i]);
      if i < |first| {
        assert FirstMissing(first, params, i);
      } else {
        forall j | 0 <= j < i - |first| ensures HasValue(rest[j], params) { assert HasValue(all[|first| + j], params); }
        assert FirstMissing(rest, params, i - |first|);
        forall k | k in first ensures HasValue(k, params) { assert HasValue(all[0], params); }
      }
    }
    if MissesOne(first, params, e) {
      var i: nat :| FirstMissing(first, params, i) && e == MissingValue(first[i]);
      assert FirstMissing(all, params, i);
    } else if (forall k <- first :: HasValue(k, params)) && MissesOne(rest, params, e) {
      var i: nat :| FirstMissing(rest, params, i) && e == MissingValue(rest[i]);
      assert FirstMissing(all, params, |first| + i);
    }
  }

  lemma {:induction false} PiecesMissing(segments: seq<Segment>, pieces: seq<string>, params: map<string, string>, e: RouteError)
    requires |segments| == |pieces|
    requires forall i :: 0 <= i < |segments| ==> Proper(segments[i]) && pieces[i] == PieceOf(segments[i])
    ensures BuildPieces(pieces, params) == Err(e) <==> MissesOne(KeysOf(segments), params, e)
    decreases |segments|
  {
    if segments != [] {
      assert Proper(segments[0]) && pieces[0] == PieceOf(segments[0]);
      PieceBuilt(segments[0], params);
      PieceMissing(segments[0], params, e);
      ProperCons(segments, pieces);
      PiecesMissing(segments[1..], pieces[1..], params, e);
      MissesCons(KeyOf(segments[0]), KeysOf(segments[1..]), params, e);
    } else {
      assert KeysOf([]) == [];
    }
  }

  /** An address is refused for the first key, in the order of the route, that has no value or an empty one. */
  lemma FirstMissingValue(route: string, segments: seq<Segment>, params: map<string, string>, e: RouteError)
    requires ParseSegments(route) == Ok(segments)
    ensures Build(route, params) == Err(e) <==> MissesOne(KeysOf(segments), params, e)
  {
    ValidExactly(route, segments);
    PiecesMissing(segments, Split(route, '/'), params, e);
  }
}
