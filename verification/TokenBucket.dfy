/** The token bucket limiter: buckets by key, refilled at a rate up to a capacity, one token a grant. */
module TokenBucket {

  datatype Bucket = Bucket(tokens: real, lastRefill: real)

  datatype Limits = Limits(rate: real, capacity: real) {
    predicate Valid() {
      rate > 0.0 && capacity > 0.0
    }
  }

  type Buckets = map<string, Bucket>

  function Min(a: real, b: real): real {
    if a <= b then a else b
  }

  /** The clock never counts backwards: an earlier instant than the last one counts as no time. */
  function Elapsed(since: real, now: real): real {
    if now >= since then now - since else 0.0
  }

  function Refilled(l: Limits, b: Bucket, now: real): real {
    Min(l.capacity, b.tokens + Elapsed(b.lastRefill, now) * l.rate)
  }

  function BucketOf(l: Limits, buckets: Buckets, key: string, now: real): Bucket {
    if key in buckets then buckets[key] else Bucket(l.capacity, now)
  }

  predicate Allows(l: Limits, buckets: Buckets, key: string, now: real) {
    Refilled(l, BucketOf(l, buckets, key, now), now) >= 1.0
  }

  function AfterAllow(l: Limits, buckets: Buckets, key: string, now: real): Buckets {
    var tokens := Refilled(l, BucketOf(l, buckets, key, now), now);
    buckets[key := Bucket(if tokens >= 1.0 then tokens - 1.0 else tokens, now)]
  }

  class TokenBucketRateLimiter {
    const limits: Limits
    var buckets: Buckets

    constructor (rate: real, capacity: real)
      requires rate > 0.0
      requires capacity > 0.0
      ensures limits == Limits(rate, capacity) && limits.Valid() && buckets == map[]
    {
      limits := Limits(rate, capacity);
      buckets := map[];
    }

    method Allow(key: string, now: real) returns (granted: bool)
      modifies this
      ensures granted == Allows(limits, old(buckets), key, now)
      ensures buckets == AfterAllow(limits, old(buckets), key, now)
    {
      if key !in buckets {
        buckets := buckets[key := Bucket(limits.capacity, now)];
      }
      var bucket := buckets[key];
      var elapsed := Elapsed(bucket.lastRefill, now);
      bucket := Bucket(Min(limits.capacity, bucket.tokens + elapsed * limits.rate), now);
      granted := bucket.tokens >= 1.0;
      if granted {
        bucket := bucket.(tokens := bucket.tokens - 1.0);
      }
      buckets := buckets[key := bucket];
    }

    method Reset(key: string)
      modifies this
      ensures buckets == old(buckets) - {key}
    {
      buckets := buckets - {key};
    }
  }

  // ---------- histories ----------

  datatype Call = Ask(key: string, at: real) | Forget(key: string)

  function Apply(l: Limits, buckets: Buckets, call: Call): Buckets {
    match call
    case Ask(key, at) => AfterAllow(l, buckets, key, at)
    case Forget(key) => buckets - {key}
  }

  /** The buckets after a history of calls on a new limiter. */
  function After(l: Limits, calls: seq<Call>): Buckets
    decreases |calls|
  {
    if calls == [] then map[]
    else Apply(l, After(l, calls[..|calls| - 1]), calls[|calls| - 1])
  }

  predicate Granted(l: Limits, calls: seq<Call>, n: nat)
    requires n < |calls|
  {
    calls[n].Ask? && Allows(l, After(l, calls[..n]), calls[n].key, calls[n].at)
  }

  predicate Monotone(calls: seq<Call>) {
    forall i, j :: 0 <= i < j < |calls| && calls[i].Ask? && calls[j].Ask? ==> calls[i].at <= calls[j].at
  }

  /** The times at which a key was asked for since its bucket was made. */
  function Since(calls: seq<Call>, key: string): (times: seq<real>)
    ensures forall t <- times :: Ask(key, t) in calls
    decreases |calls|
  {
    if calls == [] then []
    else
      var before, last := calls[..|calls| - 1], calls[|calls| - 1];
      if last.key != key then Since(before, key)
      else if last.Forget? then []
      else Since(before, key) + [last.at]
  }

  // ---------- one key on its own, with the clock counted in tokens ----------

  /** Times as the tokens the rate adds until then. */
  function Ticks(times: seq<real>, rate: real): (ticks: seq<real>)
    ensures |ticks| == |times|
    ensures forall i :: 0 <= i < |times| ==> ticks[i] == times[i] * rate
  {
    seq(|times|, i requires 0 <= i < |times| => times[i] * rate)
  }

  /** The tokens in the bucket just before the last of these calls is decided. */
  function Level(capacity: real, ticks: seq<real>): real
    requires |ticks| > 0
    decreases |ticks|, 0
  {
    var n := |ticks| - 1;
    if n == 0 then capacity
    else Min(capacity, Left(capacity, ticks[..n]) + (ticks[n] - ticks[n - 1]))
  }

  function Left(capacity: real, ticks: seq<real>): real
    requires |ticks| > 0
    decreases |ticks|, 1
  {
    if Level(capacity, ticks) >= 1.0 then Level(capacity, ticks) - 1.0 else Level(capacity, ticks)
  }

  /** The grants among the calls from `i` up to but excluding `j`. */
  function Grants(capacity: real, ticks: seq<real>, i: nat, j: nat): nat
    requires i <= j <= |ticks|
    decreases j
  {
    if i == j then 0
    else Grants(capacity, ticks, i, j - 1) + if Level(capacity, ticks[..j]) >= 1.0 then 1 else 0
  }

  predicate Sorted(times: seq<real>) {
    forall i, j :: 0 <= i < j < |times| ==> times[i] <= times[j]
  }

  /** What the bucket would hold now if it had been full at call `i` and not overflowed since. */
  function Budget(capacity: real, ticks: seq<real>, i: nat): real
    requires i < |ticks|
  {
    capacity + (ticks[|ticks| - 1] - ticks[i]) - Grants(capacity, ticks, i, |ticks| - 1) as real
  }

  lemma {:induction false} GrantsOfPrefix(capacity: real, ticks: seq<real>, n: nat, i: nat, j: nat)
    requires i <= j <= n <= |ticks|
    ensures Grants(capacity, ticks[..n], i, j) == Grants(capacity, ticks, i, j)
    decreases j
  {
    if i < j {
      GrantsOfPrefix(capacity, ticks, n, i, j - 1);
      assert ticks[..n][..j] == ticks[..j];
    }
  }

  lemma BudgetStep(capacity: real, ticks: seq<real>, i: nat)
    requires i < |ticks| - 1
    ensures var before := ticks[..|ticks| - 1];
            Budget(capacity, ticks, i) == Budget(capacity, before, i) - Level(capacity, before) + Left(capacity, before)
                                          + (ticks[|ticks| - 1] - ticks[|ticks| - 2])
  {
    GrantsOfPrefix(capacity, ticks, |ticks| - 1, i, |ticks| - 2);
  }

  /** The level is the least of the budgets, and it is one of them. */
  lemma {:induction false} LevelIsLeastBudget(capacity: real, ticks: seq<real>) returns (w: nat)
    requires |ticks| > 0
    ensures forall i :: 0 <= i < |ticks| ==> Level(capacity, ticks) <= Budget(capacity, ticks, i)
    ensures w < |ticks| && Level(capacity, ticks) == Budget(capacity, ticks, w)
    decreases |ticks|
  {
    var n := |ticks| - 1;
    if n == 0 {
      return 0;
    }
    w := LevelIsLeastBudget(capacity, ticks[..n]);
    BudgetStep(capacity, ticks, w);
    forall i | 0 <= i < |ticks| ensures Level(capacity, ticks) <= Budget(capacity, ticks, i) {
      if i < n { BudgetStep(capacity, ticks, i); }
    }
    if Level(capacity, ticks) == capacity { w := n; }
  }

  lemma {:induction false} GrantsBounded(capacity: real, ticks: seq<real>, i: nat, j: nat)
    requires capacity > 0.0 && Sorted(ticks) && i < j <= |ticks|
    ensures Grants(capacity, ticks, i, j) as real <= capacity + (ticks[j - 1] - ticks[i])
    decreases j
  {
    var head := ticks[..j];
    if Level(capacity, head) >= 1.0 {
      var w := LevelIsLeastBudget(capacity, head);
      assert Level(capacity, head) <= Budget(capacity, head, i);
      GrantsOfPrefix(capacity, ticks, j, i, j - 1);
    } else if i < j - 1 {
      GrantsBounded(capacity, ticks, i, j - 1);
    }
  }

  /** Consecutive calls keep at least the time of one token between them. */
  predicate Spaced(ticks: seq<real>) {
    forall i :: 0 <= i < |ticks| - 1 ==> ticks[i + 1] - ticks[i] >= 1.0
  }

  lemma {:induction false} SpacedLevel(capacity: real, ticks: seq<real>)
    requires |ticks| > 0 && Spaced(ticks)
    ensures Level(capacity, ticks) == capacity
    decreases |ticks|
  {
    var n := |ticks| - 1;
    if n > 0 {
      SpacedLevel(capacity, ticks[..n]);
      assert ticks[n - 1 + 1] - ticks[n - 1] >= 1.0;
    }
  }

  // ---------- the bucket of a key after a history ----------

  /** The calls for a key since its bucket was made, on the token clock. */
  function TicksSince(l: Limits, calls: seq<Call>, key: string): seq<real> {
    Ticks(Since(calls, key), l.rate)
  }

  lemma TicksAppend(times: seq<real>, t: real, rate: real)
    ensures Ticks(times + [t], rate) == Ticks(times, rate) + [t * rate]
  {
    var all, some := Ticks(times + [t], rate), Ticks(times, rate);
    assert (times + [t])[|times|] == t;
    assert all[|times|] == t * rate;
    forall i | 0 <= i < |times| ensures all[i] == some[i] { assert (times + [t])[i] == times[i]; }
    assert all == some + [t * rate];
  }

  lemma TicksSorted(times: seq<real>, rate: real)
    requires Sorted(times) && rate > 0.0
    ensures Sorted(Ticks(times, rate))
  {
    forall i, j | 0 <= i < j < |times| ensures times[i] * rate <= times[j] * rate { Product(times[i], times[j], rate); }
  }

  lemma Product(a: real, b: real, rate: real)
    requires a <= b && rate > 0.0
    ensures a * rate <= b * rate && (b - a) * rate == b * rate - a * rate
  {
    NotNegative(b - a, rate);
  }

  lemma NotNegative(x: real, y: real)
    requires x >= 0.0 && y >= 0.0
    ensures x * y >= 0.0
  {}

  lemma {:induction false} SinceInOrder(calls: seq<Call>, key: string)
    requires Monotone(calls)
    ensures Sorted(Since(calls, key))
    decreases |calls|
  {
    if calls != [] {
      var before, last := calls[..|calls| - 1], calls[|calls| - 1];
      SinceInOrder(before, key);
      var past := Since(before, key);
      forall i | 0 <= i < |past| && last.Ask? ensures past[i] <= last.at {
        assert past[i] in past;
        var k :| 0 <= k < |before| && before[k] == Ask(key, past[i]);
        assert calls[k] == before[k];
      }
    }
  }

  lemma LevelAppend(capacity: real, ticks: seq<real>, t: real)
    requires ticks != []
    ensures Level(capacity, ticks + [t]) == Min(capacity, Left(capacity, ticks) + (t - ticks[|ticks| - 1]))
  {
    assert (ticks + [t])[..|ticks|] == ticks;
  }

  lemma RefilledBy(l: Limits, tokens: real, last: real, now: real, more: real)
    requires l.Valid() && last <= now && more == now * l.rate - last * l.rate
    ensures Refilled(l, Bucket(tokens, last), now) == Min(l.capacity, tokens + more)
  {
    Product(last, now, l.rate);
  }

  /** Refilling the bucket that the calls at `past` left gives the level of the next call. */
  lemma RefilledIsLevel(l: Limits, past: seq<real>, now: real)
    requires l.Valid() && past != [] && past[|past| - 1] <= now
    ensures Refilled(l, Bucket(Left(l.capacity, Ticks(past, l.rate)), past[|past| - 1]), now)
         == Level(l.capacity, Ticks(past + [now], l.rate))
  {
    var ticks := Ticks(past, l.rate);
    TicksAppend(past, now, l.rate);
    LevelAppend(l.capacity, ticks, now * l.rate);
    RefilledBy(l, Left(l.capacity, ticks), past[|past| - 1], now, now * l.rate - ticks[|ticks| - 1]);
  }

  /** The bucket that a key has after a history depends on the calls for that key since it was made, and on
      nothing else. */
  predicate BucketFollows(l: Limits, calls: seq<Call>, key: string) {
    var times, buckets := Since(calls, key), After(l, calls);
    if times == [] then key !in buckets
    else key in buckets && buckets[key] == Bucket(Left(l.capacity, Ticks(times, l.rate)), times[|times| - 1])
  }

  lemma FirstAsk(l: Limits, now: real)
    requires l.Valid()
    ensures Refilled(l, Bucket(l.capacity, now), now) == Level(l.capacity, Ticks([now], l.rate))
  {}

  lemma AskLevel(l: Limits, before: seq<Call>, key: string, now: real)
    requires l.Valid() && Monotone(before + [Ask(key, now)]) && BucketFollows(l, before, key)
    ensures Since(before + [Ask(key, now)], key) == Since(before, key) + [now]
    ensures Refilled(l, BucketOf(l, After(l, before), key, now), now)
         == Level(l.capacity, TicksSince(l, before + [Ask(key, now)], key))
  {
    var calls, past := before + [Ask(key, now)], Since(before, key);
    assert calls[..|calls| - 1] == before;
    SinceInOrder(calls, key);
    if past == [] {
      FirstAsk(l, now);
    } else {
      assert (past + [now])[|past| - 1] <= (past + [now])[|past|];
      RefilledIsLevel(l, past, now);
    }
  }

  lemma {:induction false} BucketOfHistory(l: Limits, calls: seq<Call>, key: string)
    requires l.Valid() && Monotone(calls)
    ensures BucketFollows(l, calls, key)
    decreases |calls|
  {
    if calls != [] {
      var before, last := calls[..|calls| - 1], calls[|calls| - 1];
      BucketOfHistory(l, before, key);
      if last.key == key && last.Ask? {
        assert calls == before + [Ask(key, last.at)];
        AskLevel(l, before, key, last.at);
      }
    }
  }

  lemma GrantedByLevel(l: Limits, calls: seq<Call>, n: nat)
    requires l.Valid() && Monotone(calls) && n < |calls| && calls[n].Ask?
    ensures var past, times := Since(calls[..n], calls[n].key), Since(calls[..n + 1], calls[n].key);
            times == past + [calls[n].at] && (Granted(l, calls, n) <==> Level(l.capacity, Ticks(times, l.rate)) >= 1.0)
  {
    var before := calls[..n];
    assert calls[..n + 1] == before + [Ask(calls[n].key, calls[n].at)];
    BucketOfHistory(l, before, calls[n].key);
    AskLevel(l, before, calls[n].key, calls[n].at);
  }

  lemma GrantedByBudgets(l: Limits, calls: seq<Call>, n: nat)
    requires l.Valid() && Monotone(calls) && n < |calls| && calls[n].Ask?
    ensures var ticks := TicksSince(l, calls[..n + 1], calls[n].key);
            Granted(l, calls, n) <==> forall i :: 0 <= i < |ticks| ==> Budget(l.capacity, ticks, i) >= 1.0
  {
    GrantedByLevel(l, calls, n);
    var w := LevelIsLeastBudget(l.capacity, TicksSince(l, calls[..n + 1], calls[n].key));
  }

  // ---------- the decisions of a history ----------

  /** The grants to a key among the calls from `i` up to but excluding `j` of a history. */
  function GrantsTo(l: Limits, calls: seq<Call>, key: string, i: nat, j: nat): nat
    requires i <= j <= |calls|
    decreases j
  {
    if i == j then 0
    else GrantsTo(l, calls, key, i, j - 1) + if calls[j - 1].key == key && Granted(l, calls, j - 1) then 1 else 0
  }

  /** Between `i` and `j` the key was not reset, so its calls are the last ones of its bucket. */
  predicate Continues(calls: seq<Call>, key: string, i: nat, j: nat)
    requires i <= j <= |calls|
  {
    var past, times := Since(calls[..i], key), Since(calls[..j], key);
    past <= times && forall k :: |past| <= k < |times| ==> Ask(key, times[k]) in calls[i..j]
  }

  lemma {:induction false} NoResetContinues(calls: seq<Call>, key: string, i: nat, j: nat)
    requires i <= j <= |calls| && Forget(key) !in calls[i..j]
    ensures Continues(calls, key, i, j)
    decreases j
  {
    if i < j {
      assert calls[i..j] == calls[i..j - 1] + [calls[j - 1]];
      NoResetContinues(calls, key, i, j - 1);
      assert calls[..j][..j - 1] == calls[..j - 1];
      assert calls[j - 1] in calls[i..j];
    }
  }

  /** The decisions of a history are those of the key on its own. */
  lemma {:induction false} GrantsInHistory(l: Limits, calls: seq<Call>, key: string, i: nat, j: nat)
    requires l.Valid() && Monotone(calls) && i <= j <= |calls| && Forget(key) !in calls[i..j]
    ensures |Since(calls[..i], key)| <= |Since(calls[..j], key)|
    ensures GrantsTo(l, calls, key, i, j)
         == Grants(l.capacity, TicksSince(l, calls[..j], key), |Since(calls[..i], key)|, |Since(calls[..j], key)|)
    decreases j
  {
    if i < j {
      assert calls[i..j] == calls[i..j - 1] + [calls[j - 1]];
      GrantsInHistory(l, calls, key, i, j - 1);
      assert calls[..j][..j - 1] == calls[..j - 1];
      if calls[j - 1].key == key {
        assert calls[j - 1] in calls[i..j];
        OneMore(l, calls, j, |Since(calls[..i], key)|);
      }
    }
  }

  lemma OneMore(l: Limits, calls: seq<Call>, j: nat, p: nat)
    requires l.Valid() && Monotone(calls) && 0 < j <= |calls| && calls[j - 1].Ask?
    requires p <= |Since(calls[..j - 1], calls[j - 1].key)|
    ensures var key := calls[j - 1].key;
            var before, ticks := TicksSince(l, calls[..j - 1], key), TicksSince(l, calls[..j], key);
            |ticks| == |before| + 1
            && Grants(l.capacity, ticks, p, |ticks|)
               == Grants(l.capacity, before, p, |before|) + if Granted(l, calls, j - 1) then 1 else 0
  {
    var key := calls[j - 1].key;
    GrantedByLevel(l, calls, j - 1);
    var past, ticks := Since(calls[..j - 1], key), TicksSince(l, calls[..j], key);
    TicksAppend(past, calls[j - 1].at, l.rate);
    GrantsOfPrefix(l.capacity, ticks, |past|, p, |past|);
    assert ticks[..|past|] == Ticks(past, l.rate) && ticks[..|ticks|] == ticks;
  }

  // ---------- exactly which calls are granted ----------

  /** The call at `p` is one for the key of call `n` that the same bucket served, or call `n` itself. */
  predicate SameBucket(calls: seq<Call>, p: nat, n: nat)
    requires p <= n < |calls|
  {
    calls[p].Ask? && calls[p].key == calls[n].key && Forget(calls[n].key) !in calls[p..n]
  }

  /** A time on the clock that counts tokens. */
  function Tick(l: Limits, t: real): real {
    t * l.rate
  }

  predicate Enough(capacity: real, first: real, last: real, grants: nat) {
    capacity + (last - first) - grants as real >= 1.0
  }

  /** A bucket full at one time, refilled until another and charged with some grants, holds a token. */
  predicate Affords(l: Limits, from: real, to: real, grants: nat) {
    Enough(l.capacity, Tick(l, from), Tick(l, to), grants)
  }

  /** Every time in a bucket's history is that of one of its calls. */
  lemma {:induction false} CallOf(calls: seq<Call>, key: string, n: nat, i: nat) returns (p: nat)
    requires n <= |calls| && i < |Since(calls[..n], key)|
    ensures p < n && calls[p].Ask? && calls[p].key == key && Forget(key) !in calls[p..n]
    ensures |Since(calls[..p], key)| == i
    decreases n
  {
    var last := calls[n - 1];
    assert calls[..n][..n - 1] == calls[..n - 1];
    if last.key == key && last.Ask? && i == |Since(calls[..n - 1], key)| {
      p := n - 1;
      assert calls[p..n] == [last];
    } else {
      p := CallOf(calls, key, n - 1, i);
      assert calls[p..n] == calls[p..n - 1] + [last];
    }
  }

  /** Where a call's time stands in the history of its bucket. */
  lemma PlaceOf(calls: seq<Call>, p: nat, n: nat)
    requires p <= n < |calls| && calls[n].Ask? && SameBucket(calls, p, n)
    ensures var key := calls[n].key;
            var i, times := |Since(calls[..p], key)|, Since(calls[..n + 1], key);
            i < |times| && times[i] == calls[p].at
  {
    var key := calls[n].key;
    assert calls[p..n + 1] == [calls[p]] + calls[p + 1..n + 1] && calls[p..n + 1] == calls[p..n] + [calls[n]];
    NoResetContinues(calls, key, p + 1, n + 1);
    assert calls[..p + 1][..p] == calls[..p];
    assert Since(calls[..p + 1], key) == Since(calls[..p], key) + [calls[p].at];
  }

  lemma SinceAsk(calls: seq<Call>, n: nat)
    requires n < |calls| && calls[n].Ask?
    ensures Since(calls[..n + 1], calls[n].key) == Since(calls[..n], calls[n].key) + [calls[n].at]
  {
    assert calls[..n + 1][..n] == calls[..n];
  }

  lemma TicksOneMore(l: Limits, calls: seq<Call>, n: nat, now: real)
    requires n < |calls| && calls[n].Ask? && now == Tick(l, calls[n].at)
    ensures TicksSince(l, calls[..n + 1], calls[n].key) == TicksSince(l, calls[..n], calls[n].key) + [now]
  {
    SinceAsk(calls, n);
    TicksOf(Since(calls[..n + 1], calls[n].key), Since(calls[..n], calls[n].key), calls[n].at, l.rate, now);
  }

  lemma TicksOf(times: seq<real>, past: seq<real>, t: real, rate: real, now: real)
    requires times == past + [t] && now == t * rate
    ensures Ticks(times, rate) == Ticks(past, rate) + [now]
  {
    TicksAppend(past, t, rate);
  }

  lemma GrantsOfLonger(capacity: real, ticks: seq<real>, t: real, i: nat)
    requires i <= |ticks|
    ensures Grants(capacity, ticks + [t], i, |ticks|) == Grants(capacity, ticks, i, |ticks|)
  {
    GrantsOfPrefix(capacity, ticks + [t], |ticks|, i, |ticks|);
    assert (ticks + [t])[..|ticks|] == ticks;
  }

  lemma GrantsSinceCall(l: Limits, calls: seq<Call>, p: nat, n: nat)
    requires l.Valid() && Monotone(calls) && p <= n < |calls| && calls[n].Ask? && SameBucket(calls, p, n)
    ensures var key := calls[n].key;
            var i, before := |Since(calls[..p], key)|, TicksSince(l, calls[..n], key);
            i <= |before| && GrantsTo(l, calls, key, p, n) == Grants(l.capacity, before, i, |before|)
  {
    GrantsInHistory(l, calls, calls[n].key, p, n);
    assert |TicksSince(l, calls[..n], calls[n].key)| == |Since(calls[..n], calls[n].key)|;
  }

  lemma TickOfCall(l: Limits, calls: seq<Call>, p: nat, n: nat, tick: real)
    requires p <= n < |calls| && calls[n].Ask? && SameBucket(calls, p, n) && tick == Tick(l, calls[p].at)
    ensures var key := calls[n].key;
            var i, ticks := |Since(calls[..p], key)|, TicksSince(l, calls[..n + 1], key);
            i < |ticks| && ticks[i] == tick
  {
    PlaceOf(calls, p, n);
    TickAt(Since(calls[..n + 1], calls[n].key), l.rate, |Since(calls[..p], calls[n].key)|, calls[p].at);
  }

  lemma TickAt(times: seq<real>, rate: real, i: nat, t: real)
    requires i < |times| && times[i] == t
    ensures Ticks(times, rate)[i] == t * rate
  {}

  lemma BudgetOfTicks(capacity: real, before: seq<real>, i: nat, first: real, last: real, grants: nat)
    requires i <= |before| && (before + [last])[i] == first && grants == Grants(capacity, before, i, |before|)
    ensures Budget(capacity, before + [last], i) >= 1.0 <==> Enough(capacity, first, last, grants)
  {
    GrantsOfLonger(capacity, before, last, i);
  }

  /** The budget that call `p` leaves for call `n`, from their ticks and the grants between them. */
  lemma BudgetOfCall(l: Limits, calls: seq<Call>, p: nat, n: nat, first: real, last: real, grants: nat)
    requires l.Valid() && Monotone(calls) && p <= n < |calls| && calls[n].Ask? && SameBucket(calls, p, n)
    requires first == Tick(l, calls[p].at) && last == Tick(l, calls[n].at)
    requires grants == GrantsTo(l, calls, calls[n].key, p, n)
    ensures var i, ticks := |Since(calls[..p], calls[n].key)|, TicksSince(l, calls[..n + 1], calls[n].key);
            i < |ticks| && (Budget(l.capacity, ticks, i) >= 1.0 <==> Enough(l.capacity, first, last, grants))
  {
    TickOfCall(l, calls, p, n, first);
    TicksOneMore(l, calls, n, last);
    GrantsSinceCall(l, calls, p, n);
    BudgetOfTicks(l.capacity, TicksSince(l, calls[..n], calls[n].key), |Since(calls[..p], calls[n].key)|, first, last, grants);
  }

  predicate CallAffords(l: Limits, calls: seq<Call>, p: nat, n: nat)
    requires p <= n < |calls| && calls[p].Ask? && calls[n].Ask?
  {
    Affords(l, calls[p].at, calls[n].at, GrantsTo(l, calls, calls[n].key, p, n))
  }

  lemma GrantedAffords(l: Limits, calls: seq<Call>, p: nat, n: nat)
    requires l.Valid() && Monotone(calls) && p <= n < |calls| && calls[n].Ask? && SameBucket(calls, p, n)
    requires Granted(l, calls, n)
    ensures CallAffords(l, calls, p, n)
  {
    GrantedByBudgets(l, calls, n);
    BudgetOfCall(l, calls, p, n, Tick(l, calls[p].at), Tick(l, calls[n].at), GrantsTo(l, calls, calls[n].key, p, n));
  }

  lemma LeastBudget(l: Limits, calls: seq<Call>, n: nat) returns (i: nat)
    requires l.Valid() && Monotone(calls) && n < |calls| && calls[n].Ask? && !Granted(l, calls, n)
    ensures var ticks := TicksSince(l, calls[..n + 1], calls[n].key);
            i < |ticks| && Budget(l.capacity, ticks, i) < 1.0
  {
    GrantedByLevel(l, calls, n);
    i := LevelIsLeastBudget(l.capacity, TicksSince(l, calls[..n + 1], calls[n].key));
  }

  /** Every budget of a bucket is that of one of the calls it served. */
  lemma CallOfBucket(calls: seq<Call>, n: nat, i: nat) returns (p: nat)
    requires n < |calls| && calls[n].Ask? && i < |Since(calls[..n + 1], calls[n].key)|
    ensures p <= n && SameBucket(calls, p, n) && |Since(calls[..p], calls[n].key)| == i
  {
    p := CallOf(calls, calls[n].key, n + 1, i);
    assert calls[p..n + 1] == calls[p..n] + [calls[n]];
  }

  lemma RefusedLacks(l: Limits, calls: seq<Call>, n: nat) returns (p: nat)
    requires l.Valid() && Monotone(calls) && n < |calls| && calls[n].Ask? && !Granted(l, calls, n)
    ensures p <= n && SameBucket(calls, p, n) && !CallAffords(l, calls, p, n)
  {
    var i := LeastBudget(l, calls, n);
    p := CallOfBucket(calls, n, i);
    BudgetOfCall(l, calls, p, n, Tick(l, calls[p].at), Tick(l, calls[n].at), GrantsTo(l, calls, calls[n].key, p, n));
  }

  /** The limiter decides exactly as the bucket promises: a call is granted if and only if, for every call that its
      bucket served (itself included), a full bucket then, refilled at the rate and charged with the calls granted
      since, would hold a token now. */
  lemma ExactTokenBucket(l: Limits, calls: seq<Call>, n: nat)
    requires l.Valid() && Monotone(calls) && n < |calls| && calls[n].Ask?
    ensures Granted(l, calls, n) <==> forall p | 0 <= p <= n && SameBucket(calls, p, n) :: CallAffords(l, calls, p, n)
  {
    if Granted(l, calls, n) {
      forall p | 0 <= p <= n && SameBucket(calls, p, n) ensures CallAffords(l, calls, p, n) {
        GrantedAffords(l, calls, p, n);
      }
    } else {
      var p := RefusedLacks(l, calls, n);
    }
  }

  // ---------- rate and starvation ----------

  /** Between two moments, a key that is not reset is granted at most the capacity plus what the rate adds. */
  lemma RateBound(l: Limits, calls: seq<Call>, key: string, i: nat, j: nat, from: real, to: real)
    requires l.Valid() && Monotone(calls) && i <= j <= |calls| && from <= to
    requires forall call <- calls[i..j] :: call.key == key ==> call.Ask? && from <= call.at <= to
    ensures GrantsTo(l, calls, key, i, j) as real <= l.capacity + (to - from) * l.rate
  {
    assert Forget(key) !in calls[i..j];
    NoResetContinues(calls, key, i, j);
    GrantsInHistory(l, calls, key, i, j);
    var p, times := |Since(calls[..i], key)|, Since(calls[..j], key);
    if p < |times| {
      InWindow(calls, key, i, j, p, from, to);
      WindowGrants(l, times, p, from, to);
    } else {
      NoGrants(l, from, to);
    }
  }

  lemma NoGrants(l: Limits, from: real, to: real)
    requires l.Valid() && from <= to
    ensures 0.0 <= l.capacity + (to - from) * l.rate
  {
    NotNegative(to - from, l.rate);
  }

  lemma WindowGrants(l: Limits, times: seq<real>, p: nat, from: real, to: real)
    requires l.Valid() && Sorted(times) && p < |times| && from <= times[p] <= times[|times| - 1] <= to
    ensures Grants(l.capacity, Ticks(times, l.rate), p, |times|) as real <= l.capacity + (to - from) * l.rate
  {
    var ticks := Ticks(times, l.rate);
    assert Sorted(ticks) by { TicksSorted(times, l.rate); }
    GrantsBounded(l.capacity, ticks, p, |times|);
    TicksBetween(l, times, p, from, to);
  }

  lemma TicksBetween(l: Limits, times: seq<real>, p: nat, from: real, to: real)
    requires l.Valid() && p < |times| && from <= times[p] <= times[|times| - 1] <= to
    ensures var ticks := Ticks(times, l.rate); ticks[|times| - 1] - ticks[p] <= (to - from) * l.rate
  {
    Window(l.rate, from, times[p], times[|times| - 1], to);
  }

  lemma Window(rate: real, from: real, first: real, last: real, to: real)
    requires rate > 0.0 && from <= first <= last <= to
    ensures last * rate - first * rate <= (to - from) * rate
  {
    Product(from, first, rate);
    Product(last, to, rate);
    Product(from, to, rate);
  }

  lemma InWindow(calls: seq<Call>, key: string, i: nat, j: nat, p: nat, from: real, to: real)
    requires Monotone(calls) && i <= j <= |calls| && Continues(calls, key, i, j)
    requires p == |Since(calls[..i], key)| < |Since(calls[..j], key)|
    requires forall call <- calls[i..j] :: call.key == key && call.Ask? ==> from <= call.at <= to
    ensures var times := Since(calls[..j], key);
            Sorted(times) && from <= times[p] <= times[|times| - 1] <= to
  {
    var times := Since(calls[..j], key);
    assert Sorted(times) by { SinceInOrder(calls[..j], key); }
    AtInWindow(calls, key, i, j, p, from, to);
    AtInWindow(calls, key, i, j, |times| - 1, from, to);
    Ordered(times, p);
  }

  lemma Ordered(times: seq<real>, p: nat)
    requires Sorted(times) && p < |times|
    ensures times[p] <= times[|times| - 1]
  {}

  lemma AtInWindow(calls: seq<Call>, key: string, i: nat, j: nat, k: nat, from: real, to: real)
    requires i <= j <= |calls| && Continues(calls, key, i, j)
    requires |Since(calls[..i], key)| <= k < |Since(calls[..j], key)|
    requires forall call <- calls[i..j] :: call.key == key && call.Ask? ==> from <= call.at <= to
    ensures from <= Since(calls[..j], key)[k] <= to
  {
    assert Ask(key, Since(calls[..j], key)[k]) in calls[i..j];
  }

  lemma LevelWithinCapacity(capacity: real, ticks: seq<real>)
    requires |ticks| > 0
    ensures Level(capacity, ticks) <= capacity
  {}

  /** The first call of a bucket is granted if and only if the bucket can hold a token at all; if it cannot, no call
      is ever granted. */
  lemma NothingBelowOneToken(l: Limits, calls: seq<Call>, n: nat)
    requires l.Valid() && Monotone(calls) && n < |calls| && calls[n].Ask?
    ensures l.capacity < 1.0 ==> !Granted(l, calls, n)
    ensures Since(calls[..n], calls[n].key) == [] ==> (Granted(l, calls, n) <==> l.capacity >= 1.0)
  {
    GrantedByLevel(l, calls, n);
    LevelWithinCapacity(l.capacity, TicksSince(l, calls[..n + 1], calls[n].key));
  }

  /** A caller that keeps the time of one token between its calls is granted every call, whatever other keys do,
      if and only if the bucket can hold a token at all. */
  lemma NoStarvation(l: Limits, calls: seq<Call>, n: nat)
    requires l.Valid() && Monotone(calls) && n < |calls| && calls[n].Ask?
    requires Spaced(TicksSince(l, calls[..n + 1], calls[n].key))
    ensures Granted(l, calls, n) <==> l.capacity >= 1.0
  {
    GrantedByLevel(l, calls, n);
    SpacedLevel(l.capacity, TicksSince(l, calls[..n + 1], calls[n].key));
  }
}
