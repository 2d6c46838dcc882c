/** The local pub/sub: subscription ids by pattern. */
module PubSubSpec {
  import opened Json

  datatype Bus = Bus(subscriptions: map<string, seq<nat>>, nextId: nat, closed: bool)

  const NEW_BUS := Bus(map[], 0, false)

  datatype Outcome = Unavailable | NotFound | Done

  function ListOf(b: Bus, pattern: string): seq<nat> {
    if pattern in b.subscriptions then b.subscriptions[pattern] else []
  }

  function Subscribe(b: Bus, pattern: string): (Bus, Option<nat>) {
    if b.closed then (b, None)
    else
      (b.(subscriptions := b.subscriptions[pattern := ListOf(b, pattern) + [b.nextId]], nextId := b.nextId + 1),
       Some(b.nextId))
  }

  function Without(ids: seq<nat>, id: nat): seq<nat> {
    if ids == [] then [] else (if ids[0] == id then [] else [ids[0]]) + Without(ids[1..], id)
  }

  /** A pattern left without subscriptions is forgotten. */
  function Unsubscribe(b: Bus, pattern: string, id: nat): (Bus, Outcome) {
    if b.closed then (b, Unavailable)
    else if pattern !in b.subscriptions then (b, NotFound)
    else
      var left := Without(b.subscriptions[pattern], id);
      (b.(subscriptions := if left == [] then b.subscriptions - {pattern} else b.subscriptions[pattern := left]), Done)
  }

  function Close(b: Bus): Bus {
    b.(closed := true, subscriptions := map[])
  }

  /** A pattern matches its own text; one that ends in `.*` also all texts that begin like it. */
  predicate MatchTopic(pattern: string, topic: string) {
    pattern == topic ||
    (|pattern| >= 2 && pattern[|pattern| - 2..] == ".*" && pattern[..|pattern| - 2] <= topic)
  }

  /** The subscriptions that a publication is offered to. */
  function Receivers(b: Bus, topic: string): set<nat> {
    if b.closed then {}
    else set p, i | p in b.subscriptions && MatchTopic(p, topic) && 0 <= i < |b.subscriptions[p]| :: b.subscriptions[p][i]
  }

  /** A subscription whose buffer is full misses the publication, and nobody is told. */
  function Publish(b: Bus, topic: string, full: set<nat>): (set<nat>, Outcome) {
    if b.closed then ({}, Unavailable) else (Receivers(b, topic) - full, Done)
  }
}
