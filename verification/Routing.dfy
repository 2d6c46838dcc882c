/** Who gets a broadcast, over all nodes of the cluster. */
module Routing {
  import opened Json
  import opened Wire
  import opened ChannelSpec
  import opened NodeSteps
  import WireLaws

  /** The users a broadcast is meant for. */
  predicate Intended(cast: Cast, u: string) {
    match cast
    case ToAll => true
    case ToListed(ids) => u in ids
    case ToOthers(sender) => u != sender
  }

  /** How often one queued item reaches a user: recipients that are not connected are skipped. */
  function Copies(connected: set<string>, item: DispatchItem, u: string): nat {
    if u in connected then multiset(item.recipients)[u] else 0
  }

  function Deliveries(connected: set<string>, queue: seq<DispatchItem>, u: string): nat {
    if queue == [] then 0 else Deliveries(connected, queue[..|queue| - 1], u) + Copies(connected, queue[|queue| - 1], u)
  }

  /** How often `u` is sent to because of a step from `s` to `t`, users staying connected. */
  function Gained(s: State, t: State, u: string): int {
    Deliveries(t.connections, t.dispatchQueue, u) - Deliveries(s.connections, s.dispatchQueue, u)
  }

  lemma GainedByQueueing(s: State, t: State, ev: Event, recipients: seq<string>, u: string)
    requires t.connections == s.connections && t.dispatchQueue == Queued(s.dispatchQueue, ev, recipients)
    ensures Gained(s, t, u) == if u in s.connections then multiset(recipients)[u] else 0
  {
    if recipients != [] {
      assert t.dispatchQueue[..|t.dispatchQueue| - 1] == s.dispatchQueue;
    }
  }

  // ---------- counting recipients ----------

  lemma {:induction false} CountAmong(ids: seq<string>, connected: set<string>, u: string)
    ensures multiset(Among(ids, connected))[u] == if u in connected then multiset(ids)[u] else 0
  {
    if ids != [] {
      assert ids == [ids[0]] + ids[1..];
      CountAmong(ids[1..], connected, u);
    }
  }

  lemma {:induction false} CountWithout(ids: seq<string>, id: string, u: string)
    ensures multiset(Without(ids, id))[u] == if u == id then 0 else multiset(ids)[u]
  {
    if ids != [] {
      assert ids == [ids[0]] + ids[1..];
      CountWithout(ids[1..], id, u);
    }
  }

  lemma {:induction false} CountDistinct(ids: seq<string>, u: string)
    requires forall i, j :: 0 <= i < j < |ids| ==> ids[i] != ids[j]
    ensures multiset(ids)[u] == if u in ids then 1 else 0
  {
    if ids != [] {
      assert ids == [ids[0]] + ids[1..];
      CountDistinct(ids[1..], u);
    }
  }

  lemma CountKeys(keys: seq<string>, users: set<string>, u: string)
    requires Enumerates(keys, users)
    ensures multiset(keys)[u] == if u in users then 1 else 0
  {
    CountDistinct(keys, u);
  }

  // ---------- one node ----------

  /** How often a node with these users should send: once per intended user, or as often as it is listed. */
  function Wanted(cast: Cast, connected: set<string>, u: string): nat {
    if u !in connected then 0
    else
      match cast
      case ToAll => 1
      case ToListed(ids) => multiset(ids)[u]
      case ToOthers(sender) => if u == sender then 0 else 1
  }

  lemma SenderDelivers(s: State, keys: seq<string>, cast: Cast, ev: Event, u: string)
    requires Enumerates(keys, s.connections)
    ensures Gained(s, SendEvent(s, ev, CastRecipients(cast, keys)), u) == Wanted(cast, s.connections, u)
  {
    GainedByQueueing(s, SendEvent(s, ev, CastRecipients(cast, keys)), ev, CastRecipients(cast, keys), u);
    CountKeys(keys, s.connections, u);
    if cast.ToOthers? { CountWithout(keys, cast.sender, u); }
  }

  /** The sender id every receiver excludes: an empty one reads as "CHANNEL". */
  function ExcludedAs(cast: Cast): Cast {
    if cast == ToOthers("") then ToOthers("CHANNEL") else cast
  }

  predicate CarriesCast(ev: Event, cast: Cast) {
    && ev.action == BROADCAST
    && match cast
       case ToAll => ev.recipients == [] && ev.recipientDescriptor == ""
       case ToListed(ids) => ev.recipients == ids && ev.recipientDescriptor == ""
       case ToOthers(sender) =>
         ev.recipients == [] && ev.recipientDescriptor == "ALL_EXCEPT_SENDER" && ev.fromUserId == sender
  }

  /** The event of a broadcast of `s`. */
  predicate IsCast(ev: Event, s: State, cast: Cast) {
    CarriesCast(ev, cast) && ev.nodeId == s.nodeId && ev.channelName == s.name
  }

  /** A node that receives the broadcast of another node. */
  lemma ReceiverDelivers(m: State, keys: seq<string>, cast: Cast, ev: Event, env: Env, u: string)
    requires Enumerates(keys, m.connections) && env.keys == keys
    requires CarriesCast(ev, cast) && (cast.ToListed? ==> cast.ids != [])
    ensures
      var read := WireLaws.Received(ev, UserMessage, env.freshId);
      Gained(m, Dispatch(m, read, env), u) == Wanted(ExcludedAs(cast), m.connections, u)
  {
    var read := WireLaws.Received(ev, UserMessage, env.freshId);
    var recipients := Select(read, m.connections, keys);
    GainedByQueueing(m, Dispatch(m, read, env), read, recipients, u);
    CastRead(ev, cast, env.freshId);
    CountSelected(read, cast, m.connections, keys, u);
  }

  lemma CastRead(ev: Event, cast: Cast, freshId: string)
    requires CarriesCast(ev, cast)
    ensures var read := WireLaws.Received(ev, UserMessage, freshId);
            && read.recipients == (if cast.ToListed? then cast.ids else [])
            && (read.recipientDescriptor == "ALL_EXCEPT_SENDER" <==> cast.ToOthers?)
            && (cast.ToOthers? ==> ToOthers(read.fromUserId) == ExcludedAs(cast))
  {}

  lemma CountSelected(read: Event, cast: Cast, connected: set<string>, keys: seq<string>, u: string)
    requires Enumerates(keys, connected) && (cast.ToListed? ==> cast.ids != [])
    requires read.recipients == if cast.ToListed? then cast.ids else []
    requires read.recipientDescriptor == "ALL_EXCEPT_SENDER" <==> cast.ToOthers?
    requires cast.ToOthers? ==> ToOthers(read.fromUserId) == ExcludedAs(cast)
    ensures (if u in connected then multiset(Select(read, connected, keys))[u] else 0) == Wanted(ExcludedAs(cast), connected, u)
  {
    CountKeys(keys, connected, u);
    match cast
    case ToAll =>
    case ToListed(ids) => CountAmong(ids, connected, u);
    case ToOthers(_) => CountWithout(keys, read.fromUserId, u);
  }

  // ---------- the cluster ----------

  /** Copies of one channel on several nodes. */
  ghost predicate SameChannel(nodes: map<string, State>, channel: string) {
    forall n <- nodes :: n != "" && nodes[n].nodeId == n && nodes[n].name == channel && nodes[n].distributed
  }

  type Envs = map<string, Env>

  ghost predicate Listing(nodes: map<string, State>, envs: Envs) {
    forall n <- nodes :: n in envs && Enumerates(envs[n].keys, nodes[n].connections)
  }

  /** Node `m` after node `n` broadcast and every publication reached every node once. */
  function AfterBroadcast(nodes: map<string, State>, envs: Envs, n: string, m: string, cast: Cast, event: string,
                          payload: Value, rid: string): State
    requires n in nodes && m in nodes && n in envs && m in envs
  {
    var ev := CastEvent(nodes[n], cast, event, payload, rid);
    var recipients := CastRecipients(cast, envs[n].keys);
    var sent := SendEventSends(nodes[n], ev, recipients);
    var s := if m == n then SendEvent(nodes[n], ev, recipients) else nodes[m];
    if sent == [] then s else HandleMessage(s, Bytes(sent[0], "", "", 0), envs[m])
  }

  /** A node drops its own message, and dispatches that of another node. */
  lemma MessageHandled(s: State, data: Value, ev: Event, env: Env)
    requires Decode(data, env.freshId) == Some(ev) && ev.channelName == s.name && ev.nodeId != ""
    ensures HandleMessage(s, data, env) == if ev.nodeId == s.nodeId then s else Dispatch(s, ev, env)
  {}

  lemma Publishes(s: State, ev: Event, recipients: seq<string>)
    requires s.distributed && ev.nodeId == s.nodeId
    ensures SendEventSends(s, ev, recipients) == if recipients == [] then [] else [Publication(ev, "message")]
  {
    assert ev.(nodeId := s.nodeId) == ev;
  }

  lemma Broadcasts(nodes: map<string, State>, envs: Envs, n: string, m: string, cast: Cast, event: string,
                   payload: Value, rid: string)
    requires n in nodes && m in nodes && n in envs && m in envs && nodes[n].distributed
    ensures
      var ev := CastEvent(nodes[n], cast, event, payload, rid);
      var recipients := CastRecipients(cast, envs[n].keys);
      var s := if m == n then SendEvent(nodes[n], ev, recipients) else nodes[m];
      AfterBroadcast(nodes, envs, n, m, cast, event, payload, rid)
      == if recipients == [] then s else HandleMessage(s, Bytes(Publication(ev, "message"), "", "", 0), envs[m])
  {
    Publishes(nodes[n], CastEvent(nodes[n], cast, event, payload, rid), CastRecipients(cast, envs[n].keys));
  }

  /** How often node `m` sends to `u`: nothing anywhere when the sending node has no recipient of its own. */
  lemma NodeDelivers(nodes: map<string, State>, envs: Envs, channel: string, n: string, m: string, cast: Cast,
                     event: string, payload: Value, rid: string, u: string)
    requires SameChannel(nodes, channel) && Listing(nodes, envs) && n in nodes && m in nodes
    ensures Gained(nodes[m], AfterBroadcast(nodes, envs, n, m, cast, event, payload, rid), u)
         == if CastRecipients(cast, envs[n].keys) == [] then 0
            else Wanted(if m == n then cast else ExcludedAs(cast), nodes[m].connections, u)
  {
    var ev := CastEvent(nodes[n], cast, event, payload, rid);
    var recipients := CastRecipients(cast, envs[n].keys);
    Broadcasts(nodes, envs, n, m, cast, event, payload, rid);
    SenderDelivers(nodes[n], envs[n].keys, cast, ev, u);
    if recipients != [] {
      var data := Bytes(Publication(ev, "message"), "", "", 0);
      assert Decode(data, envs[m].freshId) == Some(WireLaws.Received(ev, UserMessage, envs[m].freshId)) by {
        WireLaws.CodecRoundTrip(ev, "message", "", "", 0, envs[m].freshId);
      }
      HandledAt(nodes[n], nodes[m], m == n, envs[n].keys, cast, ev, data, envs[m], u);
    }
  }

  /** What the node that sent it, or another, does with the message. */
  lemma HandledAt(s: State, m: State, same: bool, keys: seq<string>, cast: Cast, ev: Event, data: Value, env: Env, u: string)
    requires s.name == m.name && s.nodeId != "" && (same <==> s.nodeId == m.nodeId) && (same ==> s == m)
    requires Enumerates(keys, s.connections) && Enumerates(env.keys, m.connections) && CastRecipients(cast, keys) != []
    requires IsCast(ev, s, cast) && Decode(data, env.freshId) == Some(WireLaws.Received(ev, UserMessage, env.freshId))
    ensures
      Gained(m, HandleMessage(if same then SendEvent(s, ev, CastRecipients(cast, keys)) else m, data, env), u)
      == Wanted(if same then cast else ExcludedAs(cast), m.connections, u)
  {
    var read := WireLaws.Received(ev, UserMessage, env.freshId);
    SenderDelivers(s, keys, cast, ev, u);
    MessageHandled(if same then SendEvent(s, ev, CastRecipients(cast, keys)) else m, data, read, env);
    if !same { ReceiverDelivers(m, env.keys, cast, ev, env, u); }
  }

  // ---------- what is sent ----------

  /** An event that carries this broadcast: what the application gave, the channel, and the node it comes from. */
  predicate CarriesAll(ev: Event, channel: string, n: string, event: string, payload: Value, rid: string) {
    && ev.action == BROADCAST && ev.channelName == channel && ev.nodeId == n
    && ev.event == event && ev.payload == payload && ev.requestId == rid
  }

  /** Who it is from, as the receiving clients see it: the sender, who is named only if the broadcast leaves one out;
      on other nodes nobody reads as the channel. */
  predicate NamesSender(ev: Event, cast: Cast, here: bool) {
    match cast
    case ToOthers(sender) => ev.fromUserId == if sender == "" && !here then "CHANNEL" else sender
    case _ => ev.fromUserId == if here then "" else "CHANNEL"
  }

  /** From `s` to `t` nothing changes but that one event that carries the broadcast is queued, or nothing at all. */
  predicate QueuesIt(s: State, t: State, cast: Cast, here: bool, channel: string, n: string, event: string, payload: Value,
                     rid: string)
  {
    t == s.(dispatchQueue := t.dispatchQueue)
    && (t.dispatchQueue == s.dispatchQueue
        || (|t.dispatchQueue| == |s.dispatchQueue| + 1 && t.dispatchQueue[..|s.dispatchQueue|] == s.dispatchQueue
            && CarriesAll(t.dispatchQueue[|s.dispatchQueue|].event, channel, n, event, payload, rid)
            && NamesSender(t.dispatchQueue[|s.dispatchQueue|].event, cast, here)))
  }

  lemma QueuedOne(s: State, ev: Event, recipients: seq<string>, cast: Cast, here: bool, channel: string, n: string,
                  event: string, payload: Value, rid: string)
    requires CarriesAll(ev, channel, n, event, payload, rid) && NamesSender(ev, cast, here)
    ensures QueuesIt(s, s.(dispatchQueue := Queued(s.dispatchQueue, ev, recipients)), cast, here, channel, n, event, payload, rid)
  {}

  lemma NothingQueued(s: State, m: State, same: bool, ev: Event, cast: Cast, channel: string, n: string, event: string,
                      payload: Value, rid: string)
    requires same ==> s == m
    ensures QueuesIt(m, if same then SendEvent(s, ev, []) else m, cast, same, channel, n, event, payload, rid)
  {}

  lemma CastCarries(s: State, cast: Cast, channel: string, n: string, event: string, payload: Value, rid: string, freshId: string)
    requires s.name == channel && s.nodeId == n
    ensures var ev := CastEvent(s, cast, event, payload, rid);
            && CarriesAll(ev, channel, n, event, payload, rid) && NamesSender(ev, cast, true)
            && var read := WireLaws.Received(ev, UserMessage, freshId);
               CarriesAll(read, channel, n, event, payload, rid) && NamesSender(read, cast, false)
  {}

  /** Whatever is broadcast, on every node what is queued for its users, if anything is, is one event with exactly the
      given name, payload and request id, from that node, through the wire format. */
  lemma BroadcastCarries(nodes: map<string, State>, envs: Envs, channel: string, n: string, m: string, cast: Cast,
                         event: string, payload: Value, rid: string)
    requires SameChannel(nodes, channel) && Listing(nodes, envs) && n in nodes && m in nodes
    ensures QueuesIt(nodes[m], AfterBroadcast(nodes, envs, n, m, cast, event, payload, rid), cast, m == n, channel, n, event,
                     payload, rid)
  {
    var ev := CastEvent(nodes[n], cast, event, payload, rid);
    var recipients := CastRecipients(cast, envs[n].keys);
    Broadcasts(nodes, envs, n, m, cast, event, payload, rid);
    CastCarries(nodes[n], cast, channel, n, event, payload, rid, envs[m].freshId);
    if recipients == [] {
      NothingQueued(nodes[n], nodes[m], m == n, ev, cast, channel, n, event, payload, rid);
    } else {
      var data := Bytes(Publication(ev, "message"), "", "", 0);
      assert Decode(data, envs[m].freshId) == Some(WireLaws.Received(ev, UserMessage, envs[m].freshId)) by {
        WireLaws.CodecRoundTrip(ev, "message", "", "", 0, envs[m].freshId);
      }
      QueuedAt(nodes[n], nodes[m], m == n, ev, WireLaws.Received(ev, UserMessage, envs[m].freshId), recipients, data, envs[m],
               cast, channel, n, event, payload, rid);
    }
  }

  lemma QueuedAt(s: State, m: State, same: bool, ev: Event, read: Event, recipients: seq<string>, data: Value, env: Env,
                 cast: Cast, channel: string, n: string, event: string, payload: Value, rid: string)
    requires m.name == channel && n != "" && (same <==> n == m.nodeId) && (same ==> s == m)
    requires CarriesAll(ev, channel, n, event, payload, rid) && NamesSender(ev, cast, true)
    requires CarriesAll(read, channel, n, event, payload, rid) && NamesSender(read, cast, false)
    requires Decode(data, env.freshId) == Some(read)
    ensures QueuesIt(m, HandleMessage(if same then SendEvent(s, ev, recipients) else m, data, env), cast, same, channel, n,
                     event, payload, rid)
  {
    MessageHandled(if same then SendEvent(s, ev, recipients) else m, data, read, env);
    if same {
      QueuedOne(s, ev, recipients, cast, true, channel, n, event, payload, rid);
    } else {
      QueuedOne(m, read, Select(read, m.connections, env.keys), cast, false, channel, n, event, payload, rid);
    }
  }

  /** Node `m` sends to `u` once if `u` is one of its users and the broadcast is meant for `u`, and else not at all. */
  predicate RightAt(nodes: map<string, State>, envs: Envs, n: string, cast: Cast, event: string, payload: Value,
                    rid: string, m: string, u: string)
    requires n in nodes && n in envs && m in nodes && m in envs
  {
    Gained(nodes[m], AfterBroadcast(nodes, envs, n, m, cast, event, payload, rid), u)
    == if u in nodes[m].connections && Intended(cast, u) then 1 else 0
  }

  /** When this works for a user `u` connected at `m`. Without a recipient on the sending node the broadcast must
      not be meant for anybody; a list must not name a connected user twice; and with an empty sender id there
      must be no user "" or "CHANNEL" on another node. */
  predicate Deliverable(nodes: map<string, State>, envs: Envs, n: string, cast: Cast, m: string, u: string)
    requires n in nodes && n in envs && m in nodes
  {
    u in nodes[m].connections ==>
      if CastRecipients(cast, envs[n].keys) == [] then !Intended(cast, u)
      else
        match cast
        case ToAll => true
        case ToListed(ids) => multiset(ids)[u] <= 1
        case ToOthers(sender) => sender == "" && m != n ==> u != "" && u != "CHANNEL"
  }

  lemma WantedOnce(cast: Cast, connected: set<string>, u: string)
    ensures
      (Wanted(cast, connected, u) == if u in connected && Intended(cast, u) then 1 else 0)
      <==> (cast.ToListed? && u in connected ==> multiset(cast.ids)[u] <= 1)
  {}

  lemma WantedElsewhere(sender: string, connected: set<string>, u: string)
    ensures
      (Wanted(ExcludedAs(ToOthers(sender)), connected, u) == if u in connected && u != sender then 1 else 0)
      <==> (sender == "" && u in connected ==> u != "" && u != "CHANNEL")
  {}

  /** Each user of each node gets a broadcast exactly as intended precisely when it is deliverable there. */
  lemma BroadcastReaches(nodes: map<string, State>, envs: Envs, channel: string, n: string, cast: Cast,
                         event: string, payload: Value, rid: string, m: string, u: string)
    requires SameChannel(nodes, channel) && Listing(nodes, envs) && n in nodes && m in nodes
    ensures RightAt(nodes, envs, n, cast, event, payload, rid, m, u) <==> Deliverable(nodes, envs, n, cast, m, u)
  {
    NodeDelivers(nodes, envs, channel, n, m, cast, event, payload, rid, u);
    WantedOnce(cast, nodes[m].connections, u);
    if cast.ToOthers? { WantedElsewhere(cast.sender, nodes[m].connections, u); }
  }

  /** With every user connected at one node only, a deliverable broadcast is sent to an intended user by exactly
      one node of the cluster, once, and to nobody else. */
  lemma ExactlyOnce(nodes: map<string, State>, envs: Envs, channel: string, n: string, cast: Cast, event: string,
                    payload: Value, rid: string, home: string -> string, u: string)
    requires SameChannel(nodes, channel) && Listing(nodes, envs) && n in nodes
    requires forall m | m in nodes && u in nodes[m].connections :: home(u) == m
    requires forall m <- nodes :: Deliverable(nodes, envs, n, cast, m, u)
    ensures forall m <- nodes ::
      Gained(nodes[m], AfterBroadcast(nodes, envs, n, m, cast, event, payload, rid), u)
      == if m == home(u) && u in nodes[m].connections && Intended(cast, u) then 1 else 0
  {
    forall m | m in nodes ensures RightAt(nodes, envs, n, cast, event, payload, rid, m, u) {
      BroadcastReaches(nodes, envs, channel, n, cast, event, payload, rid, m, u);
    }
  }

  // ---------- three broadcasts that go astray ----------

  function Empty(n: string): State {
    Start(Fresh("room", n, true))
  }

  function WithUser(n: string, u: string): State {
    AddUser(Empty(n), u, map[]).0
  }

  function Listed(keys: seq<string>): Env {
    Env(keys, "r", 0)
  }

  function Two(a: State, b: State): map<string, State> {
    map["a" := a, "b" := b]
  }

  function TwoEnvs(a: seq<string>, b: seq<string>): Envs {
    map["a" := Listed(a), "b" := Listed(b)]
  }

  lemma TwoNodes(a: State, keysA: seq<string>, b: State, keysB: seq<string>)
    requires a.nodeId == "a" && b.nodeId == "b" && a.name == "room" == b.name && a.distributed && b.distributed
    requires Enumerates(keysA, a.connections) && Enumerates(keysB, b.connections)
    ensures SameChannel(Two(a, b), "room") && Listing(Two(a, b), TwoEnvs(keysA, keysB))
  {}

  /** Nobody is connected to the node that broadcasts to everybody: the user of the other node gets nothing. */
  lemma SilentNode(event: string, payload: Value)
    ensures var nodes, envs := Two(Empty("a"), WithUser("b", "ann")), TwoEnvs([], ["ann"]);
            && "ann" in nodes["b"].connections && Intended(ToAll, "ann")
            && Gained(nodes["b"], AfterBroadcast(nodes, envs, "a", "b", ToAll, event, payload, "r"), "ann") == 0
  {
    var nodes, envs := Two(Empty("a"), WithUser("b", "ann")), TwoEnvs([], ["ann"]);
    TwoNodes(Empty("a"), [], WithUser("b", "ann"), ["ann"]);
    NodeDelivers(nodes, envs, "room", "a", "b", ToAll, event, payload, "r", "ann");
  }

  /** A list names the only user twice: the user gets the message twice. */
  lemma TwiceListed(event: string, payload: Value)
    ensures var nodes, envs := Two(WithUser("a", "ann"), Empty("b")), TwoEnvs(["ann"], []);
            && "ann" in nodes["a"].connections
            && Gained(nodes["a"], AfterBroadcast(nodes, envs, "a", "a", ToListed(["ann", "ann"]), event, payload, "r"), "ann") == 2
  {
    var nodes, envs := Two(WithUser("a", "ann"), Empty("b")), TwoEnvs(["ann"], []);
    TwoNodes(WithUser("a", "ann"), ["ann"], Empty("b"), []);
    NodeDelivers(nodes, envs, "room", "a", "a", ToListed(["ann", "ann"]), event, payload, "r", "ann");
    assert multiset(["ann", "ann"])["ann"] == 2;
  }

  /** The sender is "": on the other node the user "CHANNEL" is taken for the sender and gets nothing. */
  lemma NamelessSender(event: string, payload: Value)
    ensures var nodes, envs := Two(WithUser("a", "ann"), WithUser("b", "CHANNEL")), TwoEnvs(["ann"], ["CHANNEL"]);
            && "CHANNEL" in nodes["b"].connections && Intended(ToOthers(""), "CHANNEL")
            && Gained(nodes["b"], AfterBroadcast(nodes, envs, "a", "b", ToOthers(""), event, payload, "r"), "CHANNEL") == 0
  {
    var nodes, envs := Two(WithUser("a", "ann"), WithUser("b", "CHANNEL")), TwoEnvs(["ann"], ["CHANNEL"]);
    TwoNodes(WithUser("a", "ann"), ["ann"], WithUser("b", "CHANNEL"), ["CHANNEL"]);
    NodeDelivers(nodes, envs, "room", "a", "b", ToOthers(""), event, payload, "r", "CHANNEL");
  }
}
