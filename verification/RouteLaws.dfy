/** The round trip of routes: what was built is read back, and exactly when. */
module RouteLaws {
  import opened Json
  import opened Texts
  import opened RouteSpec
  import Percent

  // ---------- the matcher finds exactly the ways a route can be filled ----------

  /** What may follow a segment: nothing, or a slash and the remaining values. */
  predicate Follows(values: seq<string>, s: string) {
    if values == [] then s == "" else s == "/" + Join(values, '/')
  }

  lemma {:induction false} ReachFits(segment: Segment, s: string, n: nat)
    requires Least(segment) <= n <= Reach(segment, s)
    ensures Fits(segment, s[..n])
    decreases s
  {
    if n > 0 && !segment.Literal? {
      if n > 1 {
        if segment.Param? { ReachFits(segment, s[1..], n - 1); } else { StarReach(s[1..], n - 1); }
      } else {
        assert s[..1] == [s[0]];
      }
      assert s[..n] == [s[0]] + s[1..][..n - 1];
    }
  }

  lemma {:induction false} StarReach(s: string, n: nat)
    requires n <= Reach(Star, s)
    ensures Fits(Star, s[..n])
    decreases s
  {
    if n > 0 {
      StarReach(s[1..], n - 1);
      assert s[..n] == [s[0]] + s[1..][..n - 1];
    }
  }

  lemma {:induction false} FitsReach(segment: Segment, value: string, rest: string)
    requires Fits(segment, value)
    ensures Least(segment) <= |value| <= Reach(segment, value + rest)
  {
    if !segment.Literal? { RunReach(segment, value, rest); }
    else if value + rest != "" { assert value <= value + rest; }
  }

  lemma {:induction false} RunReach(segment: Segment, value: string, rest: string)
    requires !segment.Literal?
    requires forall c <- value :: if segment.Star? then !LineEnd(c) else c != '/'
    ensures |value| <= Reach(segment, value + rest)
  {
    if value != "" {
      assert forall c <- value[1..] :: c in value;
      RunReach(segment, value[1..], rest);
      assert (value + rest)[1..] == value[1..] + rest;
      assert value[0] in value;
    }
  }

  lemma {:induction false} MatchSound(segments: seq<Segment>, s: string)
    requires segments != [] && Match(segments, s).Some?
    ensures AllFit(segments, Match(segments, s).value) && s == Join(Match(segments, s).value, '/')
    decreases |segments|, |s| + 2
  {
    TrySound(segments, s, Reach(segments[0], s));
  }

  lemma {:induction false} TrySound(segments: seq<Segment>, s: string, n: nat)
    requires segments != [] && n <= Reach(segments[0], s) && Try(segments, s, n).Some?
    ensures AllFit(segments, Try(segments, s, n).value) && s == Join(Try(segments, s, n).value, '/')
    decreases |segments|, n + 1
  {
    var rest := Rest(segments[1..], s[n..]);
    if rest.Some? {
      ReachFits(segments[0], s, n);
      RestSound(segments[1..], s[n..]);
      JoinCons(s[..n], rest.value, s[n..]);
      assert s == s[..n] + s[n..];
      FitCons(segments, s[..n], rest.value);
    } else {
      TrySound(segments, s, n - 1);
    }
  }

  lemma {:induction false} RestSound(segments: seq<Segment>, s: string)
    requires Rest(segments, s).Some?
    ensures AllFit(segments, Rest(segments, s).value) && Follows(Rest(segments, s).value, s)
    decreases |segments|, |s| + 3
  {
    if segments != [] {
      MatchSound(segments, s[1..]);
      assert s == "/" + s[1..];
    }
  }

  lemma JoinCons(value: string, rest: seq<string>, s: string)
    requires Follows(rest, s)
    ensures Join([value] + rest, '/') == value + s
  {
    assert ([value] + rest)[1..] == rest;
  }

  lemma FitCons(segments: seq<Segment>, value: string, rest: seq<string>)
    requires segments != [] && Fits(segments[0], value) && AllFit(segments[1..], rest)
    ensures AllFit(segments, [value] + rest)
  {
    var values := [value] + rest;
    forall i | 0 <= i < |segments| ensures Fits(segments[i], values[i]) {
      if i > 0 { assert Fits(segments[1..][i - 1], rest[i - 1]); }
    }
  }

  /** The value of a first segment and what follows it. */
  lemma Unjoin(values: seq<string>) returns (tail: string)
    requires values != []
    ensures Join(values, '/') == values[0] + tail && Follows(values[1..], tail)
  {
    tail := if |values| == 1 then "" else "/" + Join(values[1..], '/');
  }

  lemma {:induction false} MatchComplete(segments: seq<Segment>, values: seq<string>)
    requires segments != [] && AllFit(segments, values)
    ensures Match(segments, Join(values, '/')).Some?
    decreases |segments|, 1
  {
    var tail := Unjoin(values);
    assert Fits(segments[0], values[0]);
    FitsReach(segments[0], values[0], tail);
    TryComplete(segments, values, tail, Reach(segments[0], values[0] + tail));
  }

  lemma {:induction false} TryComplete(segments: seq<Segment>, values: seq<string>, tail: string, n: nat)
    requires segments != [] && AllFit(segments, values) && Follows(values[1..], tail)
    requires Least(segments[0]) <= |values[0]| <= n <= |values[0] + tail|
    ensures Try(segments, values[0] + tail, n).Some?
    decreases |segments|, 0, n
  {
    var s := values[0] + tail;
    if n == |values[0]| {
      assert s[n..] == tail;
      if |segments| > 1 {
        assert AllFit(segments[1..], values[1..]) by { TailFits(segments, values); }
        MatchComplete(segments[1..], values[1..]);
        assert tail[1..] == Join(values[1..], '/');
      }
    } else if Rest(segments[1..], s[n..]).None? {
      TryComplete(segments, values, tail, n - 1);
    }
  }

  lemma TailFits(segments: seq<Segment>, values: seq<string>)
    requires segments != [] && AllFit(segments, values)
    ensures AllFit(segments[1..], values[1..])
  {
    forall i | 0 <= i < |segments| - 1 ensures Fits(segments[1..][i], values[1..][i]) {
      assert Fits(segments[i + 1], values[i + 1]);
    }
  }

  // ---------- there is only one way ----------

  /** Like `Fits`, but a wildcard may hold line ends too. */
  predicate FitsLoosely(segment: Segment, value: string) {
    segment.Star? || Fits(segment, value)
  }

  predicate AllFitLoosely(segments: seq<Segment>, values: seq<string>) {
    |values| == |segments| && forall i :: 0 <= i < |segments| ==> FitsLoosely(segments[i], values[i])
  }

  /** What a valid declaration gives: at most one wildcard, and no slash inside a literal. */
  predicate WellFormed(segments: seq<Segment>) {
    && (forall i, j :: 0 <= i < j < |segments| ==> !(segments[i].Star? && segments[j].Star?))
    && (forall i :: 0 <= i < |segments| && segments[i].Literal? ==> '/' !in segments[i].text && '?' !in segments[i].text)
  }

  lemma WellFormedTail(segments: seq<Segment>)
    requires segments != [] && WellFormed(segments)
    ensures WellFormed(segments[1..])
  {
    var tail := segments[1..];
    forall i | 0 <= i < |tail| && tail[i].Literal? ensures '/' !in tail[i].text && '?' !in tail[i].text {
      assert segments[i + 1].Literal?;
    }
    forall i, j | 0 <= i < j < |tail| ensures !(tail[i].Star? && tail[j].Star?) {
      assert !(segments[i + 1].Star? && segments[j + 1].Star?);
    }
  }

  lemma LooseTail(segments: seq<Segment>, values: seq<string>)
    requires segments != [] && AllFitLoosely(segments, values)
    ensures AllFitLoosely(segments[1..], values[1..])
  {
    forall i | 0 <= i < |segments| - 1 ensures FitsLoosely(segments[1..][i], values[1..][i]) {
      assert FitsLoosely(segments[i + 1], values[i + 1]);
    }
  }

  predicate NoStar(segments: seq<Segment>) {
    forall i :: 0 <= i < |segments| ==> !segments[i].Star?
  }

  lemma {:induction false} SlashesWithoutStar(segments: seq<Segment>, values: seq<string>)
    requires segments != [] && WellFormed(segments) && NoStar(segments) && AllFitLoosely(segments, values)
    ensures Count(Join(values, '/'), '/') == |segments| - 1
    decreases |segments|
  {
    assert FitsLoosely(segments[0], values[0]) && '/' !in values[0];
    CountNone(values[0], '/');
    if |segments| > 1 {
      WellFormedTail(segments);
      LooseTail(segments, values);
      forall i | 0 <= i < |segments| - 1 ensures !segments[1..][i].Star? { assert !segments[i + 1].Star?; }
      SlashesWithoutStar(segments[1..], values[1..]);
      CountAppend(values[0], ['/'] + Join(values[1..], '/'), '/');
      assert Join(values, '/') == values[0] + (['/'] + Join(values[1..], '/'));
      assert (['/'] + Join(values[1..], '/'))[1..] == Join(values[1..], '/');
    }
  }

  /** A route with one wildcard anywhere can be filled to a given path in one way only. */
  lemma {:induction false} OnlyOneFilling(segments: seq<Segment>, a: seq<string>, b: seq<string>)
    requires WellFormed(segments) && AllFitLoosely(segments, a) && AllFitLoosely(segments, b)
    requires Join(a, '/') == Join(b, '/')
    ensures a == b
    decreases |segments|
  {
    if segments != [] {
      assert FitsLoosely(segments[0], a[0]) && FitsLoosely(segments[0], b[0]);
      if |segments| > 1 {
        WellFormedTail(segments);
        LooseTail(segments, a);
        LooseTail(segments, b);
        if segments[0].Star? {
          forall i | 0 <= i < |segments| - 1 ensures !segments[1..][i].Star? {
            assert !(segments[0].Star? && segments[i + 1].Star?);
          }
          SlashesWithoutStar(segments[1..], a[1..]);
          SlashesWithoutStar(segments[1..], b[1..]);
          TailsEqual(a[0], Join(a[1..], '/'), b[0], Join(b[1..], '/'), '/');
        } else {
          HeadsEqual(a[0], Join(a[1..], '/'), b[0], Join(b[1..], '/'), '/');
        }
        OnlyOneFilling(segments[1..], a[1..], b[1..]);
      }
      assert a == [a[0]] + a[1..] && b == [b[0]] + b[1..];
    }
  }

  /** The regular expression of a route, with its greedy backtracking, matches a path exactly if the path is a
      filling of the route, and then yields that filling. */
  lemma MatchIsFilling(segments: seq<Segment>, s: string, values: seq<string>)
    requires segments != [] && WellFormed(segments)
    ensures Match(segments, s) == Some(values) <==> AllFit(segments, values) && s == Join(values, '/')
  {
    if Match(segments, s).Some? { MatchSound(segments, s); }
    if AllFit(segments, values) && s == Join(values, '/') {
      MatchComplete(segments, values);
      Loosely(segments, values);
      Loosely(segments, Match(segments, s).value);
      OnlyOneFilling(segments, values, Match(segments, s).value);
    }
  }

  lemma Loosely(segments: seq<Segment>, values: seq<string>)
    requires AllFit(segments, values)
    ensures AllFitLoosely(segments, values)
  {
    forall i | 0 <= i < |segments| ensures FitsLoosely(segments[i], values[i]) { assert Fits(segments[i], values[i]); }
  }
}
