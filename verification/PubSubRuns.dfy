/** Channels coming and going on one local pub/sub. */
module PubSubRuns {
  import opened Json
  import opened PubSubSpec

  /** The subscriptions a started channel holds: one to its own topic, unless its endpoint has no path, and one to
      the heartbeat topic. */
  datatype Held = Held(topic: string, hasPath: bool, onTopic: Option<nat>, heartbeatTopic: string, onHeartbeat: nat)

  /** `open` are the started channels that are not closed. */
  datatype System = System(bus: Bus, open: map<nat, Held>)

  datatype Op =
    | Start(channel: nat, topic: string, heartbeatTopic: string, hasPath: bool)
    | Stop(channel: nat)

  predicate Enabled(y: System, op: Op) {
    && !y.bus.closed
    && match op
       case Start(channel, _, _, _) => channel !in y.open
       case Stop(channel) => channel in y.open
  }

  /** `start`: the topic first, then the heartbeats. */
  function Started(y: System, channel: nat, topic: string, heartbeatTopic: string, hasPath: bool): System
    requires !y.bus.closed
  {
    var (b1, onTopic) := if hasPath then Subscribe(y.bus, topic) else (y.bus, None);
    var (b2, onHeartbeat) := Subscribe(b1, heartbeatTopic);
    System(b2, y.open[channel := Held(topic, hasPath, onTopic, heartbeatTopic, onHeartbeat.value)])
  }

  /** `close`: both subscriptions are given up. */
  function Stopped(y: System, channel: nat): System
    requires channel in y.open
  {
    var h := y.open[channel];
    var b1 := if h.onTopic.Some? then Unsubscribe(y.bus, h.topic, h.onTopic.value).0 else y.bus;
    System(Unsubscribe(b1, h.heartbeatTopic, h.onHeartbeat).0, y.open - {channel})
  }

  function Next(y: System, op: Op): System
    requires Enabled(y, op)
  {
    match op
    case Start(channel, topic, heartbeatTopic, hasPath) => Started(y, channel, topic, heartbeatTopic, hasPath)
    case Stop(channel) => Stopped(y, channel)
  }

  // ---------- one subscription comes or goes ----------

  lemma {:induction false} WithoutMembers(ids: seq<nat>, id: nat)
    ensures forall i :: i in Without(ids, id) <==> i in ids && i != id
  {
    if ids != [] { WithoutMembers(ids[1..], id); }
  }

  /** No list holds an id twice, and none is empty. */
  predicate Tidy(b: Bus) {
    forall p <- b.subscriptions :: b.subscriptions[p] != [] && Distinct(b.subscriptions[p])
  }

  predicate Distinct(ids: seq<nat>) {
    forall i, j :: 0 <= i < j < |ids| ==> ids[i] != ids[j]
  }

  lemma {:induction false} WithoutDistinct(ids: seq<nat>, id: nat)
    requires Distinct(ids)
    ensures Distinct(Without(ids, id))
  {
    if ids != [] {
      assert Distinct(ids[1..]);
      WithoutDistinct(ids[1..], id);
      WithoutMembers(ids[1..], id);
      assert ids[0] !in ids[1..];
    }
  }

  predicate Knows(b: Bus, pattern: string, id: nat) {
    id in ListOf(b, pattern)
  }

  predicate BelowNext(b: Bus) {
    forall p <- b.subscriptions :: forall id <- b.subscriptions[p] :: id < b.nextId
  }

  /** A new subscription gets an id never given before, and leaves all others. */
  lemma SubscribeAdds(b: Bus, pattern: string)
    requires !b.closed && Tidy(b) && BelowNext(b)
    ensures var (n, id) := Subscribe(b, pattern);
            && id == Some(b.nextId) && n.nextId > b.nextId && !n.closed && Tidy(n) && BelowNext(n)
            && (forall p, i :: Knows(n, p, i) <==> Knows(b, p, i) || (p == pattern && i == b.nextId))
            && !Knows(b, pattern, b.nextId)
  {
    var n := Subscribe(b, pattern).0;
    var before, after := ListOf(b, pattern), ListOf(n, pattern);
    assert Distinct(before) && forall id <- before :: id < b.nextId;
    forall i, j | 0 <= i < j < |after| ensures after[i] != after[j] {
      if j == |before| { assert after[i] == before[i] && before[i] in before; }
    }
    forall p | p in n.subscriptions ensures Distinct(n.subscriptions[p]) && forall id <- n.subscriptions[p] :: id < n.nextId {}
  }

  /** Giving one up removes it, and leaves all others. */
  lemma UnsubscribeRemoves(b: Bus, pattern: string, id: nat)
    requires !b.closed && Tidy(b) && BelowNext(b)
    ensures var n := Unsubscribe(b, pattern, id).0;
            && n.nextId == b.nextId && !n.closed && Tidy(n) && BelowNext(n)
            && (forall p, i :: Knows(n, p, i) <==> Knows(b, p, i) && !(p == pattern && i == id))
  {
    WithoutMembers(ListOf(b, pattern), id);
    if pattern in b.subscriptions { WithoutDistinct(b.subscriptions[pattern], id); }
  }

  // ---------- the invariant ----------

  predicate Holds(h: Held, pattern: string, id: nat) {
    (h.onTopic == Some(id) && h.topic == pattern) || (h.onHeartbeat == id && h.heartbeatTopic == pattern)
  }

  predicate HasId(h: Held, id: nat) {
    h.onTopic == Some(id) || h.onHeartbeat == id
  }

  ghost predicate Sound(y: System) {
    && !y.bus.closed && Tidy(y.bus) && BelowNext(y.bus)
    && (forall p, id :: Knows(y.bus, p, id) <==> exists c :: c in y.open && Holds(y.open[c], p, id))
    && (forall c <- y.open :: IdsRight(y.open[c], y.bus.nextId))
    && (forall c, d, id | c in y.open && d in y.open && HasId(y.open[c], id) && HasId(y.open[d], id) :: c == d)
  }

  predicate IdsRight(h: Held, nextId: nat) {
    h.onHeartbeat < nextId && (h.onTopic.Some? <==> h.hasPath) && (h.onTopic.Some? ==> h.onTopic.value < h.onHeartbeat)
  }

  lemma StartBus(y: System, channel: nat, topic: string, heartbeatTopic: string, hasPath: bool)
    requires !y.bus.closed && Tidy(y.bus) && BelowNext(y.bus)
    ensures var z := Started(y, channel, topic, heartbeatTopic, hasPath);
            && !z.bus.closed && Tidy(z.bus) && BelowNext(z.bus) && y.bus.nextId < z.bus.nextId
            && channel in z.open && z.open == y.open[channel := z.open[channel]]
            && IdsRight(z.open[channel], z.bus.nextId)
            && y.bus.nextId <= z.open[channel].onHeartbeat
            && (hasPath ==> z.open[channel].onTopic == Some(y.bus.nextId))
            && (forall p, id :: Knows(z.bus, p, id) <==> Knows(y.bus, p, id) || Holds(z.open[channel], p, id))
  {
    if hasPath {
      SubscribeAdds(y.bus, topic);
      SubscribeAdds(Subscribe(y.bus, topic).0, heartbeatTopic);
    } else {
      SubscribeAdds(y.bus, heartbeatTopic);
    }
  }

  lemma IdsOfStarted(y: System, z: System, channel: nat)
    requires Sound(y) && channel in z.open && z.open == y.open[channel := z.open[channel]]
    requires y.bus.nextId <= z.open[channel].onHeartbeat
    requires z.open[channel].onTopic.Some? ==> y.bus.nextId <= z.open[channel].onTopic.value
    ensures forall c, d, id | c in z.open && d in z.open && HasId(z.open[c], id) && HasId(z.open[d], id) :: c == d
  {
    forall c, d, id | c in z.open && d in z.open && HasId(z.open[c], id) && HasId(z.open[d], id) ensures c == d {
      if c != channel { assert c in y.open && IdsRight(y.open[c], y.bus.nextId); }
      if d != channel { assert d in y.open && IdsRight(y.open[d], y.bus.nextId); }
    }
  }

  lemma StartSound(y: System, channel: nat, topic: string, heartbeatTopic: string, hasPath: bool)
    requires Sound(y) && channel !in y.open
    ensures Sound(Started(y, channel, topic, heartbeatTopic, hasPath))
  {
    var z := Started(y, channel, topic, heartbeatTopic, hasPath);
    StartBus(y, channel, topic, heartbeatTopic, hasPath);
    forall p, id ensures Knows(z.bus, p, id) <==> exists c :: c in z.open && Holds(z.open[c], p, id) {
      StartedHolds(y, z, channel, p, id);
    }
    IdsOfStarted(y, z, channel);
  }

  lemma StartedHolds(y: System, z: System, channel: nat, p: string, id: nat)
    requires channel !in y.open && channel in z.open && z.open == y.open[channel := z.open[channel]]
    ensures (exists c :: c in z.open && Holds(z.open[c], p, id))
       <==> Holds(z.open[channel], p, id) || exists c :: c in y.open && Holds(y.open[c], p, id)
  {
    if exists c :: c in y.open && Holds(y.open[c], p, id) {
      var c :| c in y.open && Holds(y.open[c], p, id);
      assert c in z.open && Holds(z.open[c], p, id);
    }
  }

  lemma StopSound(y: System, channel: nat)
    requires Sound(y) && channel in y.open
    ensures Sound(Stopped(y, channel))
  {
    var z, h := Stopped(y, channel), y.open[channel];
    if h.onTopic.Some? { UnsubscribeRemoves(y.bus, h.topic, h.onTopic.value); }
    UnsubscribeRemoves(if h.onTopic.Some? then Unsubscribe(y.bus, h.topic, h.onTopic.value).0 else y.bus,
                       h.heartbeatTopic, h.onHeartbeat);
    forall p, id ensures Knows(z.bus, p, id) <==> exists c :: c in z.open && Holds(z.open[c], p, id) {
      StoppedHolds(y, z, channel, p, id);
    }
  }

  lemma StoppedHolds(y: System, z: System, channel: nat, p: string, id: nat)
    requires Sound(y) && channel in y.open && z.open == y.open - {channel}
    ensures (exists c :: c in z.open && Holds(z.open[c], p, id)) <==> Knows(y.bus, p, id) && !Holds(y.open[channel], p, id)
  {
    if Knows(y.bus, p, id) && !Holds(y.open[channel], p, id) {
      var c :| c in y.open && Holds(y.open[c], p, id);
      assert c in z.open && Holds(z.open[c], p, id);
    }
    if exists c :: c in z.open && Holds(z.open[c], p, id) {
      var c :| c in z.open && Holds(z.open[c], p, id);
      assert c in y.open && Holds(y.open[c], p, id) && HasId(y.open[c], id);
      assert Holds(y.open[channel], p, id) ==> HasId(y.open[channel], id);
    }
  }

  // ---------- whole runs ----------

  predicate Runs(y: System, ops: seq<Op>)
    decreases |ops|
  {
    ops == [] || (Enabled(y, ops[0]) && Runs(Next(y, ops[0]), ops[1..]))
  }

  function After(y: System, ops: seq<Op>): System
    requires Runs(y, ops)
    decreases |ops|
  {
    if ops == [] then y else After(Next(y, ops[0]), ops[1..])
  }

  lemma {:induction false} RunSound(y: System, ops: seq<Op>)
    requires Sound(y) && Runs(y, ops)
    ensures Sound(After(y, ops)) && After(y, ops).bus.nextId >= y.bus.nextId
    decreases |ops|
  {
    if ops != [] {
      match ops[0] {
        case Start(channel, topic, heartbeatTopic, hasPath) => StartSound(y, channel, topic, heartbeatTopic, hasPath);
        case Stop(channel) => StopSound(y, channel);
      }
      RunSound(Next(y, ops[0]), ops[1..]);
    }
  }

  // ---------- what a pattern matches ----------

  /** A topic a pattern is meant for: its own text, and with a dot and a star at its end every text that begins with
      what stands in front of them. */
  ghost predicate MeantFor(pattern: string, topic: string) {
    pattern == topic || exists front, rest :: pattern == front + ".*" && topic == front + rest
  }

  lemma MatchesExactly(pattern: string, topic: string)
    ensures MatchTopic(pattern, topic) <==> MeantFor(pattern, topic)
  {
    if |pattern| >= 2 && pattern[|pattern| - 2..] == ".*" && pattern[..|pattern| - 2] <= topic {
      var front := pattern[..|pattern| - 2];
      assert pattern == front + ".*" && topic == front + topic[|front|..];
    }
    if exists front, rest :: pattern == front + ".*" && topic == front + rest {
      var front, rest :| pattern == front + ".*" && topic == front + rest;
      assert pattern[|pattern| - 2..] == ".*" && pattern[..|pattern| - 2] == front;
    }
  }

  const EMPTY := System(NEW_BUS, map[])

  /** A channel holds one subscription to the heartbeats and another to its own topic, the latter if and only if its
      endpoint has a path. */
  predicate HoldsOneAndOne(h: Held) {
    (h.onTopic.Some? <==> h.hasPath) && h.onTopic != Some(h.onHeartbeat)
  }

  /** After any run of starts and closes the pub/sub holds the subscriptions of the open channels, each once, and no
      others: for each channel one to the heartbeats and, with a path, another to its topic. A publication is taken by
      exactly the subscriptions to a matching topic that have room for it. */
  lemma SubscriptionsConserved(ops: seq<Op>, topic: string, full: set<nat>)
    requires Runs(EMPTY, ops)
    ensures
      var y := After(EMPTY, ops);
      && (forall p, id :: Knows(y.bus, p, id) <==> exists c :: c in y.open && Holds(y.open[c], p, id))
      && (forall p :: Distinct(ListOf(y.bus, p)))
      && (forall c, d, id | c in y.open && d in y.open && HasId(y.open[c], id) && HasId(y.open[d], id) :: c == d)
      && (forall c <- y.open :: HoldsOneAndOne(y.open[c]))
      && (forall id :: id in Publish(y.bus, topic, full).0 <==>
            id !in full && exists p :: MeantFor(p, topic) && Knows(y.bus, p, id))
  {
    RunSound(EMPTY, ops);
    var y := After(EMPTY, ops);
    OfferedTo(y.bus, topic);
    forall p ensures Distinct(ListOf(y.bus, p)) {}
  }

  lemma OfferedTo(b: Bus, topic: string)
    requires !b.closed
    ensures forall id :: id in Receivers(b, topic) <==> exists p :: MeantFor(p, topic) && Knows(b, p, id)
  {
    forall id
      ensures id in Receivers(b, topic) <==> exists p :: MeantFor(p, topic) && Knows(b, p, id)
    {
      if exists p :: MeantFor(p, topic) && Knows(b, p, id) {
        var p :| MeantFor(p, topic) && Knows(b, p, id);
        MatchesExactly(p, topic);
        assert p in b.subscriptions && id in b.subscriptions[p];
      }
      if id in Receivers(b, topic) {
        var p :| p in b.subscriptions && MatchTopic(p, topic) && id in b.subscriptions[p];
        MatchesExactly(p, topic);
        assert Knows(b, p, id);
      }
    }
  }

  /** A closed pub/sub is closed for good: it takes and gives up no subscription, delivers nothing, and says so. */
  lemma ClosedForGood(b: Bus, pattern: string, id: nat, topic: string, full: set<nat>)
    ensures var n := Close(b);
            && (forall p, i :: !Knows(n, p, i))
            && Subscribe(n, pattern) == (n, None)
            && Unsubscribe(n, pattern, id) == (n, Unavailable)
            && Publish(n, topic, full) == ({}, Unavailable)
  {}

  /** An open one delivers without error; giving up is refused exactly where nothing of the pattern is left. */
  lemma OpenOutcomes(b: Bus, pattern: string, id: nat, topic: string, full: set<nat>)
    requires !b.closed && Tidy(b)
    ensures Publish(b, topic, full).1 == Done
    ensures Unsubscribe(b, pattern, id).1 == if exists i :: Knows(b, pattern, i) then Done else NotFound
  {
    if pattern in b.subscriptions {
      assert b.subscriptions[pattern] != [];
      assert Knows(b, pattern, b.subscriptions[pattern][0]);
    }
  }

  /** Ids are not reused: a channel started later gets ids above all that were ever given. */
  lemma IdsNeverReused(before: seq<Op>, after: seq<Op>, channel: nat, topic: string, heartbeatTopic: string, hasPath: bool)
    requires Runs(EMPTY, before) && Runs(After(EMPTY, before), after)
    requires channel !in After(After(EMPTY, before), after).open
    ensures
      var y, z := After(EMPTY, before), After(After(EMPTY, before), after);
      !z.bus.closed &&
      var h := Started(z, channel, topic, heartbeatTopic, hasPath).open[channel];
      forall c <- y.open :: !HasId(y.open[c], h.onHeartbeat) && (h.onTopic.Some? ==> !HasId(y.open[c], h.onTopic.value))
  {
    RunSound(EMPTY, before);
    RunSound(After(EMPTY, before), after);
    var z := After(After(EMPTY, before), after);
    if hasPath { SubscribeAdds(z.bus, topic); }
  }
}
