/** What the path parser does with slashes, and which paths a route reads. */
module PathLaws {
  import opened Json
  import opened Texts
  import opened PathSpec

  // ---------- slashes ----------

  lemma {:induction false} UntilTake(s: string, i: nat, c: char)
    requires i <= |s|
    ensures Until(s[..i], c) == if Until(s, c) < i then Until(s, c) else i
    decreases |s|
  {
    if s != "" && s[0] != c && i > 0 {
      UntilTake(s[1..], i - 1, c);
      assert s[..i][1..] == s[1..][..i - 1];
    }
  }

  /** Splitting can be done on both sides of any separator. */
  lemma {:induction false} SplitAt(s: string, i: nat, c: char)
    requires i < |s| && s[i] == c
    ensures Split(s, c) == Split(s[..i], c) + Split(s[i + 1..], c)
    decreases |s|
  {
    var n := Until(s, c);
    UntilTake(s, i, c);
    if n < i {
      var t := s[n + 1..];
      Slices(s, i, n);
      SplitLater(s, n, c, t);
      SplitLater(s[..i], n, c, t[..i - n - 1]);
      assert t[i - n - 1] == c;
      SplitAt(t, i - n - 1, c);
      SplitGlue(Split(s, c), Split(t, c), Split(s[..i], c), [s[..n]], Split(t[..i - n - 1], c), Split(s[i + 1..], c));
    } else {
      FirstUntil(s, i, c);
      SplitHere(s, i, c);
    }
  }

  lemma {:induction false} FirstUntil(s: string, i: nat, c: char)
    requires i < |s| && s[i] == c
    ensures Until(s, c) <= i
    decreases s
  {
    if s[0] != c { FirstUntil(s[1..], i - 1, c); }
  }

  lemma SplitHere(s: string, i: nat, c: char)
    requires i < |s| && Until(s, c) == i == Until(s[..i], c)
    ensures Split(s, c) == Split(s[..i], c) + Split(s[i + 1..], c)
  {
    assert Split(s[..i], c) == [s[..i]];
  }

  lemma Slices(s: string, i: nat, n: nat)
    requires n < i < |s|
    ensures s[..i][n + 1..] == s[n + 1..][..i - n - 1] && s[..i][..n] == s[..n] && s[n + 1..][i - n..] == s[i + 1..]
  {}

  lemma SplitLater(s: string, n: nat, c: char, t: string)
    requires n < |s| && Until(s, c) == n && t == s[n + 1..]
    ensures Split(s, c) == [s[..n]] + Split(t, c)
  {}

  lemma SplitGlue(all: seq<string>, rest: seq<string>, left: seq<string>, first: seq<string>, more: seq<string>, right: seq<string>)
    requires all == first + rest && rest == more + right && left == first + more
    ensures all == left + right
  {}

  lemma SplitConcat(a: string, b: string, c: char)
    ensures Split(a + [c] + b, c) == Split(a, c) + Split(b, c)
  {
    var s := a + [c] + b;
    SplitAt(s, |a|, c);
    assert s[..|a|] == a && s[|a| + 1..] == b;
  }

  lemma {:induction false} NonEmptyConcat(a: seq<string>, b: seq<string>)
    ensures NonEmpty(a + b) == NonEmpty(a) + NonEmpty(b)
  {
    if a == [] {
      assert a + b == b;
    } else {
      assert (a + b)[1..] == a[1..] + b;
      NonEmptyConcat(a[1..], b);
    }
  }

  /** A slash separates, and nothing else about it matters. */
  lemma PiecesConcat(a: string, b: string)
    ensures Pieces(a + "/" + b) == Pieces(a) + Pieces(b)
  {
    SplitConcat(a, b, '/');
    NonEmptyConcat(Split(a, '/'), Split(b, '/'));
    assert "/" == ['/'];
  }

  lemma NoPieces()
    ensures Pieces("") == []
  {
    assert Split("", '/') == [""];
    assert NonEmpty([""]) == NonEmpty([""][1..]);
  }

  lemma SlashFirst(s: string)
    ensures Pieces("/" + s) == Pieces(s)
  {
    PiecesConcat("", s);
    NoPieces();
    assert "" + "/" + s == "/" + s;
  }

  lemma SlashLast(s: string)
    ensures Pieces(s + "/") == Pieces(s)
  {
    PiecesConcat(s, "");
    NoPieces();
    assert s + "/" + "" == s + "/";
  }

  lemma {:induction false} TrimStartKeeps(s: string)
    ensures Pieces(TrimStart(s)) == Pieces(s)
    ensures TrimStart(s) != "" ==> TrimStart(s)[0] != '/'
  {
    if s != "" && s[0] == '/' {
      TrimStartKeeps(s[1..]);
      SlashFirst(s[1..]);
      assert s == "/" + s[1..];
    }
  }

  lemma {:induction false} TrimEndKeeps(s: string)
    ensures Pieces(TrimEnd(s)) == Pieces(s)
    ensures TrimEnd(s) != "" ==> TrimEnd(s)[|TrimEnd(s)| - 1] != '/' && TrimEnd(s)[0] == s[0]
    decreases |s|
  {
    if s != "" && s[|s| - 1] == '/' {
      var t := s[..|s| - 1];
      TrimEndKeeps(t);
      SlashLast(t);
      assert s == t + "/";
    }
  }

  lemma TrimKeepsPieces(s: string)
    ensures var t := TrimEnd(TrimStart(s));
            Pieces(t) == Pieces(s) && (t != "" ==> t[0] != '/' && t[|t| - 1] != '/')
  {
    TrimStartKeeps(s);
    TrimEndKeeps(TrimStart(s));
  }

  /** After a slash, only the pieces of what follows count. */
  lemma SameTail(p: string, a: string, b: string)
    requires Pieces(a) == Pieces(b)
    ensures Pieces(p + "/" + a) == Pieces(p + "/" + b)
  {
    PiecesConcat(p, a);
    PiecesConcat(p, b);
  }

  /** What halving leaves to do behind a first slash. */
  function Behind(s: string): string
    requires s != ""
  {
    if |s| >= 2 && s[1] == '/' then s[2..] else s[1..]
  }

  lemma Grouped(a: string, b: string, c: string)
    ensures a + (b + c) == a + b + c
  {}

  lemma HalveSlash(p: string, s: string)
    requires s != "" && s[0] == '/'
    ensures p + Halve(s) == p + "/" + Halve(Behind(s)) && p + s == p + "/" + s[1..]
    ensures s[1..] == Behind(s) || s[1..] == "/" + Behind(s)
  {
    Grouped(p, "/", Halve(Behind(s)));
    Grouped(p, "/", s[1..]);
    assert s == "/" + s[1..];
  }

  lemma HalveOther(p: string, s: string)
    requires s != "" && s[0] != '/'
    ensures p + Halve(s) == p + [s[0]] + Halve(s[1..]) && p + s == p + [s[0]] + s[1..]
  {
    Grouped(p, [s[0]], Halve(s[1..]));
    Grouped(p, [s[0]], s[1..]);
    assert s == [s[0]] + s[1..];
  }

  lemma {:induction false} HalveAfter(p: string, s: string)
    ensures Pieces(p + Halve(s)) == Pieces(p + s)
    decreases |s|
  {
    if s != "" {
      if s[0] != '/' {
        HalveAfter(p + [s[0]], s[1..]);
        HalveOther(p, s);
      } else {
        HalveAfter("", Behind(s));
        assert "" + Halve(Behind(s)) == Halve(Behind(s)) && "" + Behind(s) == Behind(s);
        HalveSlash(p, s);
        SlashFirst(Behind(s));
        SameTail(p, Halve(Behind(s)), s[1..]);
      }
    }
  }

  lemma HalveKeepsPieces(s: string)
    ensures Pieces(Halve(s)) == Pieces(s)
  {
    HalveAfter("", s);
    assert "" + Halve(s) == Halve(s) && "" + s == s;
  }

  lemma {:induction false} HalveShape(s: string)
    ensures |Halve(s)| <= |s| && (s != "" ==> Halve(s) != "" && Halve(s)[0] == s[0] && Halve(s)[|Halve(s)| - 1] == s[|s| - 1])
    decreases |s|
  {
    if |s| >= 2 && s[0] == '/' && s[1] == '/' {
      HalveShape(s[2..]);
    } else if s != "" {
      HalveShape(s[1..]);
    }
  }

  lemma HalveKeepsEnds(s: string)
    requires s != "" ==> s[0] != '/' && s[|s| - 1] != '/'
    ensures Halve(s) != "" ==> Halve(s)[0] != '/' && Halve(s)[|Halve(s)| - 1] != '/'
  {
    HalveShape(s);
  }

  lemma {:induction false} HalveShrinks(s: string)
    requires HasDouble(s)
    ensures |Halve(s)| < |s|
    decreases |s|
  {
    if s[0] == '/' && s[1] == '/' {
      HalveShape(s[2..]);
    } else {
      var i :| 0 <= i < |s| - 1 && s[i] == '/' && s[i + 1] == '/';
      assert s[1..][i - 1] == '/' && s[1..][i] == '/';
      HalveShrinks(s[1..]);
    }
  }

  lemma {:induction false} AllNonEmpty(pieces: seq<string>)
    requires forall p <- pieces :: p != ""
    ensures NonEmpty(pieces) == pieces
  {
    if pieces != [] {
      assert pieces[0] in pieces;
      assert forall p <- pieces[1..] :: p in pieces;
      AllNonEmpty(pieces[1..]);
    }
  }

  lemma {:induction false} TidySplit(s: string)
    requires s != "" && s[0] != '/' && s[|s| - 1] != '/' && !HasDouble(s)
    ensures forall p <- Split(s, '/') :: p != ""
    decreases |s|
  {
    var n := Until(s, '/');
    if n < |s| {
      var t := s[n + 1..];
      TidyTail(s, n);
      TidySplit(t);
      SplitLater(s, n, '/', t);
    }
  }

  lemma TidyTail(s: string, n: nat)
    requires s != "" && s[0] != '/' && s[|s| - 1] != '/' && !HasDouble(s) && n == Until(s, '/') < |s|
    ensures n + 1 < |s| && n > 0
    ensures var t := s[n + 1..]; t[0] != '/' && t[|t| - 1] != '/' && !HasDouble(t)
  {
    UntilFinds(s, '/');
    assert s[n] == '/';
    var t := s[n + 1..];
    forall i | 0 <= i < |t| - 1 ensures !(t[i] == '/' && t[i + 1] == '/') {
      assert t[i] == s[n + 1 + i] && t[i + 1] == s[n + 1 + i + 1];
    }
  }

  lemma TidyPieces(s: string)
    requires s != "" && s[0] != '/' && s[|s| - 1] != '/' && !HasDouble(s)
    ensures Pieces(s) == Split(s, '/')
  {
    TidySplit(s);
    AllNonEmpty(Split(s, '/'));
  }
}
