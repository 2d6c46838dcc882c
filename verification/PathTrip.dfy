/** Which paths a route of the Rust parser reads, and reading back what was filled in. */
module PathTrip {
  import opened Json
  import opened Texts
  import opened PathSpec
  import opened PathLaws

  // ---------- slashes around a path do not matter ----------

  /** The parts of a path before and after the first '?'. */
  function Cut(path: string): (string, string) {
    SplitOnce(path, '?').GetOr((path, ""))
  }

  lemma {:induction false} UntilConcat(a: string, b: string, c: char)
    requires c !in a
    ensures Until(a + b, c) == |a| + Until(b, c)
  {
    if a == "" {
      assert a + b == b;
    } else {
      assert (a + b)[1..] == a[1..] + b;
      UntilConcat(a[1..], b, c);
    }
  }

  lemma CutConcat(a: string, b: string)
    requires '?' !in a
    ensures Cut(a + b) == (a + Cut(b).0, Cut(b).1)
  {
    UntilConcat(a, b, '?');
    var n := Until(b, '?');
    if n < |b| {
      assert (a + b)[..|a| + n] == a + b[..n] && (a + b)[|a| + n + 1..] == b[n + 1..];
    }
  }

  lemma ParseByPieces(route: string, p: string, q: string)
    requires Pieces(Cut(p).0) == Pieces(Cut(q).0) && Cut(p).1 == Cut(q).1
    ensures Parse(route, p) == Parse(route, q)
  {
    NoPieces();
    SlashFirst("");
    assert Until("/", '?') == 1 by { UntilNone("/", '?'); }
    assert Pieces(Cut("/").0) == Pieces(Cut("").0) by { assert "/" + "" == "/"; }
  }

  /** A slash may be doubled anywhere before the query, and added in front and behind. */
  lemma SlashesDoNotMatter(route: string, a: string, b: string)
    requires '?' !in a
    ensures Parse(route, a + "//" + b) == Parse(route, a + "/" + b)
    ensures Parse(route, "/" + a + b) == Parse(route, a + b)
    ensures b == "" || b[0] == '?' ==> Parse(route, a + "/" + b) == Parse(route, a + b)
  {
    DoubleInside(route, a, b);
    SlashInFront(route, a, b);
    if b == "" || b[0] == '?' { SlashBehind(route, a, b); }
  }

  lemma DoubleInside(route: string, a: string, b: string)
    requires '?' !in a
    ensures Parse(route, a + "//" + b) == Parse(route, a + "/" + b)
  {
    CutConcat(a + "/", b);
    CutConcat(a + "//", b);
    DoubledSlash(a, Cut(b).0);
    ParseByPieces(route, a + "//" + b, a + "/" + b);
  }

  lemma SlashInFront(route: string, a: string, b: string)
    requires '?' !in a
    ensures Parse(route, "/" + a + b) == Parse(route, a + b)
  {
    var head := Cut(b).0;
    CutConcat(a, b);
    CutConcat("/" + a, b);
    SlashFirst(a + head);
    assert "/" + a + head == "/" + (a + head);
    ParseByPieces(route, "/" + a + b, a + b);
  }

  lemma SlashBehind(route: string, a: string, b: string)
    requires '?' !in a && (b == "" || b[0] == '?')
    ensures Parse(route, a + "/" + b) == Parse(route, a + b)
  {
    CutConcat(a, b);
    CutConcat(a + "/", b);
    assert Cut(b).0 == "" && a + "" == a && a + "/" + "" == a + "/";
    SlashLast(a);
    ParseByPieces(route, a + "/" + b, a + b);
  }

  lemma DoubledSlash(a: string, b: string)
    ensures Pieces(a + "//" + b) == Pieces(a + "/" + b)
  {
    PiecesConcat(a, b);
    PiecesConcat(a, "/" + b);
    SlashFirst(b);
    assert a + "//" + b == a + "/" + ("/" + b);
  }

  // ---------- which paths match ----------

  predicate AllBound(routeSegments: seq<string>, pathSegments: seq<string>)
    requires |routeSegments| <= |pathSegments|
  {
    forall i :: 0 <= i < |routeSegments| ==> Bound(routeSegments[i], pathSegments[i]) != Mismatch
  }

  lemma {:induction false} MatchExactly(routeSegments: seq<string>, pathSegments: seq<string>, params: map<string, string>)
    ensures MatchSegments(routeSegments, pathSegments, params).Some?
       <==> |routeSegments| <= |pathSegments| && AllBound(routeSegments, pathSegments)
    decreases |routeSegments|
  {
    if routeSegments != [] && |routeSegments| <= |pathSegments| {
      var b := Bound(routeSegments[0], pathSegments[0]);
      var rs, ps := routeSegments[1..], pathSegments[1..];
      var next := if b.Bind? then params[b.name := b.value] else params;
      MatchExactly(rs, ps, next);
      assert AllBound(routeSegments, pathSegments) <==> b != Mismatch && AllBound(rs, ps) by {
        forall i | 1 <= i < |routeSegments| ensures rs[i - 1] == routeSegments[i] && ps[i - 1] == pathSegments[i] {}
        if b != Mismatch && AllBound(rs, ps) {
          forall i | 0 <= i < |routeSegments| ensures Bound(routeSegments[i], pathSegments[i]) != Mismatch {
            if i > 0 { assert Bound(rs[i - 1], ps[i - 1]) != Mismatch; }
          }
        }
        if AllBound(routeSegments, pathSegments) {
          forall i | 0 <= i < |rs| ensures Bound(rs[i], ps[i]) != Mismatch {
            assert Bound(routeSegments[i + 1], pathSegments[i + 1]) != Mismatch;
          }
        }
      }
    }
  }

  /** A route without a wildcard reads the paths with as many pieces, each bound by its segment; a route with one
      reads the paths whose pieces before the wildcard are bound, and takes all the others. */
  lemma ParseExactly(route: string, path: string)
    ensures var rs, ps := Pieces(route), Pieces(Cut(path).0);
            var n := WildcardIndex(rs);
            Parse(route, path).Some? <==>
              (if n < |rs| then n <= |ps| else n == |ps|) && n <= |ps| && AllBound(rs[..n], ps[..n])
  {
    if path == "" { ParseByPieces(route, "/", ""); EmptyPath(); }
    PiecesExactly(Pieces(route), Pieces(Cut(path).0), Query(Cut(path).1));
  }

  lemma PiecesExactly(rs: seq<string>, ps: seq<string>, query: map<string, seq<string>>)
    ensures var n := WildcardIndex(rs);
            ParsePieces(rs, ps, query).Some? <==>
              (if n < |rs| then n <= |ps| else n == |ps|) && n <= |ps| && AllBound(rs[..n], ps[..n])
  {
    var n := WildcardIndex(rs);
    MatchExactly(rs[..n], ps[..Smaller(n, |ps|)], map[]);
    if n == |rs| { assert rs[..n] == rs; if n == |ps| { assert ps[..n] == ps; } }
  }

  lemma EmptyPath()
    ensures Pieces(Cut("/").0) == Pieces(Cut("").0) == [] && Cut("/").1 == Cut("").1 == ""
  {
    NoPieces();
    SlashFirst("");
    assert "/" + "" == "/";
    UntilNone("/", '?');
  }

  lemma {:induction false} WildcardFirst(before: seq<string>, after: seq<string>)
    requires "*" !in before
    ensures WildcardIndex(before + ["*"] + after) == |before|
  {
    if before != [] {
      assert (before + ["*"] + after)[1..] == before[1..] + ["*"] + after;
      WildcardFirst(before[1..], after);
    }
  }

  /** Whatever a route declares behind its first wildcard has no say. */
  lemma AfterWildcardIgnored(before: string, after: string, path: string)
    requires "*" !in Pieces(before)
    ensures Parse(before + "/*/" + after, path) == Parse(before + "/*", path)
  {
    var rs := Pieces(before);
    StarPiece();
    PiecesConcat(before, "*");
    PiecesConcat(before, "*" + "/" + after);
    PiecesConcat("*", after);
    assert before + "/*/" + after == before + "/" + ("*" + "/" + after) && before + "/*" == before + "/" + "*";
    assert Pieces(before + "/*/" + after) == rs + ["*"] + Pieces(after);
    assert Pieces(before + "/*") == rs + ["*"] + [];
    var current := if path == "" then "/" else path;
    var ps, query := Pieces(Cut(current).0), Query(Cut(current).1);
    TailIgnored(rs, Pieces(after), ps, query);
    TailIgnored(rs, [], ps, query);
  }

  lemma TailIgnored(before: seq<string>, after: seq<string>, ps: seq<string>, query: map<string, seq<string>>)
    requires "*" !in before
    ensures ParsePieces(before + ["*"] + after, ps, query) ==
            var cut := Smaller(|before|, |ps|);
            match MatchSegments(before, ps[..cut], map[])
            case None => None
            case Some(params) => Some(Route(params, query, Some(Join(ps[cut..], '/'))))
  {
    WildcardFirst(before, after);
    assert (before + ["*"] + after)[..|before|] == before;
  }

  lemma StarPiece()
    ensures Pieces("*") == ["*"]
  {
    UntilNone("*", '/');
    assert NonEmpty(["*"][1..]) == [];
  }

  // ---------- reading back what was filled in ----------

  datatype Part = Word(text: string) | Named(name: string) | Prefixed(prefix: string, name: string)

  predicate Plain(s: string) {
    forall c <- s :: c != '/' && c != '?'
  }

  predicate ProperPart(p: Part) {
    match p
    case Word(text) => text != "" && text != "*" && Plain(text) && ':' !in text
    case Named(name) => '/' !in name
    case Prefixed(prefix, name) => prefix != "" && Plain(prefix) && ':' !in prefix && '/' !in name
  }

  function RoutePiece(p: Part): string {
    match p
    case Word(text) => text
    case Named(name) => ":" + name
    case Prefixed(prefix, name) => prefix + ":" + name
  }

  function PathPiece(p: Part, values: map<string, string>): string
    requires Given(p, values)
  {
    match p
    case Word(text) => text
    case Named(name) => values[name]
    case Prefixed(prefix, name) => prefix + values[name]
  }

  /** A value for the part's name that can stand in a path; alone in a piece it must not be empty. */
  predicate Given(p: Part, values: map<string, string>) {
    match p
    case Word(_) => true
    case Named(name) => name in values && Plain(values[name]) && values[name] != ""
    case Prefixed(_, name) => name in values && Plain(values[name])
  }

  function RoutePieces(parts: seq<Part>): (pieces: seq<string>)
    ensures |pieces| == |parts|
    ensures forall i :: 0 <= i < |parts| ==> pieces[i] == RoutePiece(parts[i])
  {
    seq(|parts|, i requires 0 <= i < |parts| => RoutePiece(parts[i]))
  }

  function PathPieces(parts: seq<Part>, values: map<string, string>): (pieces: seq<string>)
    requires forall p <- parts :: Given(p, values)
    ensures |pieces| == |parts|
    ensures forall i :: 0 <= i < |parts| ==> Given(parts[i], values) && pieces[i] == PathPiece(parts[i], values)
  {
    seq(|parts|, i requires 0 <= i < |parts| => assert parts[i] in parts; PathPiece(parts[i], values))
  }

  /** Pieces as a text with a leading slash. */
  function AsPath(pieces: seq<string>): string {
    "/" + Join(pieces, '/')
  }

  lemma PiecesOfPath(pieces: seq<string>)
    requires forall p <- pieces :: p != "" && '/' !in p
    ensures Pieces(AsPath(pieces)) == pieces
  {
    SlashFirst(Join(pieces, '/'));
    if pieces == [] {
      NoPieces();
    } else {
      SplitOfJoin(pieces, '/');
      AllNonEmpty(pieces);
    }
  }

  function Names(parts: seq<Part>): set<string> {
    set p | p in parts && !p.Word? :: p.name
  }

  lemma BoundByPart(p: Part, values: map<string, string>)
    requires ProperPart(p) && Given(p, values)
    ensures Bound(RoutePiece(p), PathPiece(p, values)) ==
            if p.Word? then Nothing else Bind(p.name, PercentDecode(values[p.name]))
  {
    match p
    case Word(text) => UntilNone(text, ':');
    case Named(name) =>
      UntilIs("", ':', name);
      assert "" + [':'] + name == ":" + name;
      assert (":" + name)[..0] == "" && (":" + name)[1..] == name;
      assert values[name][0..] == values[name];
    case Prefixed(prefix, name) =>
      UntilIs(prefix, ':', name);
      assert prefix + [':'] + name == prefix + ":" + name;
      assert (prefix + ":" + name)[..|prefix|] == prefix && (prefix + ":" + name)[|prefix| + 1..] == name;
      assert (prefix + values[name])[|prefix|..] == values[name];
  }

  /** The parameters after matching a filled route: the decoded values, over what was there. */
  lemma {:induction false} MatchFilled(parts: seq<Part>, values: map<string, string>, params: map<string, string>)
    requires forall p <- parts :: ProperPart(p) && Given(p, values)
    ensures var m := MatchSegments(RoutePieces(parts), PathPieces(parts, values), params);
            m.Some? && Decoded(parts, values, params, m.value)
    decreases |parts|
  {
    if parts != [] {
      var p := parts[0];
      assert p in parts;
      BoundByPart(p, values);
      assert RoutePieces(parts)[1..] == RoutePieces(parts[1..]);
      assert PathPieces(parts, values)[1..] == PathPieces(parts[1..], values);
      var next := if p.Word? then params else params[p.name := PercentDecode(values[p.name])];
      MatchFilled(parts[1..], values, next);
      NamesCons(parts);
    } else {
      assert Names(parts) == {};
    }
  }

  lemma NamesCons(parts: seq<Part>)
    requires parts != []
    ensures Names(parts) == Names(parts[1..]) + if parts[0].Word? then {} else {parts[0].name}
  {
    assert forall p :: p in parts <==> p == parts[0] || p in parts[1..];
  }

  ghost predicate Decoded(parts: seq<Part>, values: map<string, string>, params: map<string, string>,
                          found: map<string, string>) {
    forall k :: (k in found <==> k in Names(parts) || k in params)
             && (k in Names(parts) ==> k in values && k in found && found[k] == PercentDecode(values[k]))
             && (k in params && k !in Names(parts) ==> found[k] == params[k])
  }

  /** Whether decoding would change a text: it has a '%' followed by a number in base 16. */
  predicate NoEscape(s: string) {
    forall i :: 0 <= i < |s| ==> EscapeAt(s[i..]).None?
  }

  lemma {:induction false} DecodeShrinks(s: string)
    ensures |PercentDecode(s)| <= |s|
    ensures |PercentDecode(s)| == |s| <==> NoEscape(s)
    ensures NoEscape(s) ==> PercentDecode(s) == s
    decreases |s|
  {
    if s != "" {
      assert s[0..] == s;
      if EscapeAt(s).Some? {
        DecodeShrinks(s[3..]);
      } else {
        DecodeShrinks(s[1..]);
        forall i | 0 <= i < |s| - 1 ensures s[1..][i..] == s[i + 1..] {}
        if NoEscape(s[1..]) {
          forall i | 0 <= i < |s| ensures EscapeAt(s[i..]).None? {
            if i > 0 { assert s[1..][i - 1..] == s[i..]; }
          }
        }
      }
    }
  }

  function RouteOf(parts: seq<Part>, wild: bool): string {
    AsPath(RoutePieces(parts) + if wild then ["*"] else [])
  }

  function PathOf(parts: seq<Part>, values: map<string, string>, rest: seq<string>): string
    requires forall p <- parts :: Given(p, values)
  {
    AsPath(PathPieces(parts, values) + rest)
  }

  predicate PlainPieces(rest: seq<string>) {
    forall r <- rest :: r != "" && Plain(r)
  }

  lemma PartPieces(parts: seq<Part>, values: map<string, string>, wild: bool, rest: seq<string>)
    requires forall p <- parts :: ProperPart(p) && Given(p, values)
    requires PlainPieces(rest)
    ensures Pieces(RouteOf(parts, wild)) == RoutePieces(parts) + (if wild then ["*"] else [])
    ensures Pieces(PathOf(parts, values, rest)) == PathPieces(parts, values) + rest
    ensures "*" !in RoutePieces(parts)
    ensures PlainPieces(PathPieces(parts, values) + rest)
  {
    var rs, ps := RoutePieces(parts), PathPieces(parts, values);
    forall i | 0 <= i < |parts|
      ensures rs[i] != "" && '/' !in rs[i] && rs[i] != "*"
      ensures ps[i] != "" && Plain(ps[i])
    {
      assert parts[i] in parts;
      RoutePieceShape(parts[i]);
    }
    PiecesOfPath(rs + if wild then ["*"] else []);
    PiecesOfPath(ps + rest);
  }

  lemma RoutePieceShape(p: Part)
    requires ProperPart(p)
    ensures RoutePiece(p) != "" && '/' !in RoutePiece(p) && RoutePiece(p) != "*"
  {
    if p.Named? { assert RoutePiece(p)[0] == ':'; }
    if p.Prefixed? { assert RoutePiece(p)[|p.prefix|] == ':' && |RoutePiece(p)| >= 2; }
  }

  lemma {:induction false} PlainJoin(pieces: seq<string>)
    requires PlainPieces(pieces)
    ensures '?' !in Join(pieces, '/')
  {
    if pieces != [] {
      assert pieces[0] in pieces;
      assert PlainPieces(pieces[1..]) by { assert forall r <- pieces[1..] :: r in pieces; }
      PlainJoin(pieces[1..]);
    }
  }

  /** What a filled route is read as, whatever the values: the decoded values, and the rest as it was. */
  lemma ReadsFilled(parts: seq<Part>, values: map<string, string>, wild: bool, rest: seq<string>)
    requires forall p <- parts :: ProperPart(p) && Given(p, values)
    requires PlainPieces(rest) && (rest != [] ==> wild)
    ensures var r := Parse(RouteOf(parts, wild), PathOf(parts, values, rest));
            r.Some? && Decoded(parts, values, map[], r.value.params) && r.value.query == map[]
            && r.value.wildcard == if wild then Some(Join(rest, '/')) else None
  {
    var rs, ps := RoutePieces(parts), PathPieces(parts, values);
    PartPieces(parts, values, wild, rest);
    PlainJoin(ps + rest);
    UntilNone(PathOf(parts, values, rest), '?');
    MatchFilled(parts, values, map[]);
    if wild {
      WildcardFirst(rs, []);
      assert rs + ["*"] + [] == rs + ["*"];
      assert (rs + ["*"])[..|rs|] == rs && (ps + rest)[..|ps|] == ps && (ps + rest)[|ps|..] == rest;
    } else {
      assert rs + [] == rs && ps + rest == ps;
      assert WildcardIndex(rs) == |rs|;
    }
  }

  /** Reading a filled route gives the values back if and only if none of them has an escape in it. */
  lemma PathRoundTrip(parts: seq<Part>, values: map<string, string>, wild: bool, rest: seq<string>)
    requires forall p <- parts :: ProperPart(p) && Given(p, values)
    requires PlainPieces(rest) && (rest != [] ==> wild)
    requires values.Keys == Names(parts)
    ensures Parse(RouteOf(parts, wild), PathOf(parts, values, rest))
            == Some(Route(values, map[], if wild then Some(Join(rest, '/')) else None))
       <==> forall n <- values :: NoEscape(values[n])
  {
    ReadsFilled(parts, values, wild, rest);
    var found := Parse(RouteOf(parts, wild), PathOf(parts, values, rest)).value.params;
    forall n | n in values
      ensures n in found && (found[n] == values[n] <==> NoEscape(values[n]))
    {
      assert n in Names(parts);
      DecodeShrinks(values[n]);
    }
    assert found == values <==> forall n <- values :: found[n] == values[n] by {
      if forall n <- values :: found[n] == values[n] {
        assert forall n :: n in found <==> n in Names(parts);
        assert found.Keys == values.Keys;
      }
    }
  }

  /** The value `%41` is read as `A`. */
  lemma EscapedValueLost()
    ensures var values := map["id" := "%41"];
            Given(Named("id"), values)
            && Parse(RouteOf([Named("id")], false), PathOf([Named("id")], values, []))
               == Some(Route(map["id" := "A"], map[], None))
  {
    var parts, values := [Named("id")], map["id" := "%41"];
    ReadsFilled(parts, values, false, []);
    var found := Parse(RouteOf(parts, false), PathOf(parts, values, [])).value.params;
    assert parts[0] in parts && Names(parts) == {"id"};
    assert "%41"[3..] == "" && Hex('4', '1') == Some(65) && EscapeAt("%41") == Some(65);
    assert PercentDecode("%41") == [65 as char] + PercentDecode("") == "A";
    assert found == map["id" := "A"];
  }
}
