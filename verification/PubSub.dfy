/** The local pub/sub as an object. */
module LocalBus {
  import opened Json
  import opened PubSubSpec

  class LocalPubSub {
    var subscriptions: map<string, seq<nat>>
    var nextId: nat
    var closed: bool

    function Model(): Bus
      reads this
    {
      Bus(subscriptions, nextId, closed)
    }

    constructor ()
      ensures Model() == NEW_BUS
    {
      subscriptions, nextId, closed := map[], 0, false;
    }

    method Subscribe(pattern: string) returns (id: Option<nat>)
      modifies this
      ensures (Model(), id) == PubSubSpec.Subscribe(old(Model()), pattern)
    {
      if closed { return None; }
      id := Some(nextId);
      nextId := nextId + 1;
      if pattern !in subscriptions { subscriptions := subscriptions[pattern := []]; }
      subscriptions := subscriptions[pattern := subscriptions[pattern] + [id.value]];
      assert subscriptions == old(subscriptions)[pattern := ListOf(old(Model()), pattern) + [old(nextId)]];
    }

    method Unsubscribe(pattern: string, id: nat) returns (outcome: Outcome)
      modifies this
      ensures (Model(), outcome) == PubSubSpec.Unsubscribe(old(Model()), pattern, id)
    {
      if closed { return Unavailable; }
      if pattern !in subscriptions { return NotFound; }
      var list := Retain(subscriptions[pattern], id);
      if list == [] {
        subscriptions := subscriptions - {pattern};
      } else {
        subscriptions := subscriptions[pattern := list];
      }
      return Done;
    }

    /** `full` are the subscriptions whose buffer has no room at this moment: they miss the publication. */
    method Publish(topic: string, full: set<nat>) returns (taken: set<nat>, outcome: Outcome)
      ensures (taken, outcome) == PubSubSpec.Publish(Model(), topic, full)
    {
      if closed { return {}, Unavailable; }
      taken := {};
      var patterns := subscriptions.Keys;
      while patterns != {}
        invariant patterns <= subscriptions.Keys
        invariant taken == (set p, i | p in subscriptions && p !in patterns && MatchTopic(p, topic)
                                       && 0 <= i < |subscriptions[p]| :: subscriptions[p][i]) - full
        decreases |patterns|
      {
        var pattern :| pattern in patterns;
        if MatchTopic(pattern, topic) {
          taken := taken + (set i | 0 <= i < |subscriptions[pattern]| :: subscriptions[pattern][i]) - full;
        }
        patterns := patterns - {pattern};
      }
      assert taken == Receivers(Model(), topic) - full;
      return taken, Done;
    }

    method Close()
      modifies this
      ensures Model() == PubSubSpec.Close(old(Model()))
    {
      closed := true;
      subscriptions := map[];
    }
  }

  lemma RetainStep(kept: seq<nat>, ids: seq<nat>, id: nat, i: nat)
    requires i < |ids|
    ensures kept + Without(ids[i..], id)
         == (if ids[i] != id then kept + [ids[i]] else kept) + Without(ids[i + 1..], id)
  {
    assert ids[i..][1..] == ids[i + 1..];
    assert Without(ids[i..], id) == (if ids[i] == id then [] else [ids[i]]) + Without(ids[i + 1..], id);
  }

  method Retain(ids: seq<nat>, id: nat) returns (kept: seq<nat>)
    ensures kept == Without(ids, id)
  {
    kept := [];
    var i := 0;
    while i < |ids|
      invariant i <= |ids|
      invariant kept + Without(ids[i..], id) == Without(ids, id)
    {
      RetainStep(kept, ids, id, i);
      if ids[i] != id { kept := kept + [ids[i]]; }
      i := i + 1;
    }
  }
}
