/** A cluster over a network that may reorder, duplicate and lose: everything ever published may be
    delivered to any node, any number of times, at any later step, or never. */
module Cluster {
  import opened Json
  import opened Wire
  import opened ChannelSpec
  import opened NodeSteps
  import opened Partition
  import WireLaws

  datatype World = World(nodes: map<string, State>, net: set<Publication>)

  datatype Action =
    | Open(node: string, channel: string)                // a channel object is created and started
    | Local(node: string, op: Op)
    | Deliver(node: string, what: Publication, endpoint: string, messageId: string, timestamp: int)

  function SetOf(sent: seq<Publication>): set<Publication> {
    set p | p in sent
  }

  function TakeStep(w: World, node: string, op: Op, env: Env): World
    requires node in w.nodes
  {
    World(w.nodes[node := Step(w.nodes[node], op, env)], w.net + SetOf(Sends(w.nodes[node], op, env)))
  }

  function Next(w: World, a: Action, env: Env): World {
    match a
    case Open(node, channel) =>
      var s := Start(Fresh(channel, node, true));
      World(w.nodes[node := s], w.net + SetOf(RequestStateSends(s, env.freshId)))
    case Local(node, op) => if node in w.nodes then TakeStep(w, node, op, env) else w
    case Deliver(node, what, endpoint, messageId, timestamp) =>
      if node in w.nodes then TakeStep(w, node, Receive(Bytes(what, endpoint, messageId, timestamp)), env) else w
  }

  /** Node ids are not empty, only published messages arrive. */
  predicate Possible(w: World, a: Action, env: Env) {
    && (a.node in w.nodes ==> Enumerates(env.keys, w.nodes[a.node].connections))
    && match a
       case Open(node, _) => node != ""
       case Local(node, op) => !op.Receive?
       case Deliver(_, what, _, _, _) => what in w.net
  }

  /** Besides, every user is added at one node only. */
  predicate Enabled(w: World, a: Action, env: Env, home: Homes) {
    Possible(w, a, env) && (a.Local? && a.op.Add? ==> home(a.op.id) == a.node)
  }

  function Run(w: World, actions: seq<(Action, Env)>): World
    decreases |actions|
  {
    if actions == [] then w else Run(Next(w, actions[0].0, actions[0].1), actions[1..])
  }

  predicate AllEnabled(w: World, actions: seq<(Action, Env)>, home: Homes)
    decreases |actions|
  {
    actions == [] ||
    (Enabled(w, actions[0].0, actions[0].1, home) && AllEnabled(Next(w, actions[0].0, actions[0].1), actions[1..], home))
  }

  const EMPTY := World(map[], {})

  ghost predicate NodesSound(w: World, home: Homes) {
    forall n <- w.nodes :: w.nodes[n].nodeId == n && Partitioned(w.nodes[n], home)
  }

  ghost predicate NetSound(w: World, home: Homes) {
    forall p <- w.net :: Genuine(ReadAs(p, ""), home)
  }

  // ---------- one step ----------

  lemma ReadWithOtherId(p: Publication, freshId: string, home: Homes)
    requires Genuine(ReadAs(p, ""), home)
    ensures Genuine(ReadAs(p, freshId), home)
  {
    var t := Classify(p.ev, p.subtype);
    SamePayload(p.ev, t, freshId);
  }

  lemma SamePayload(ev: Event, t: MessageType, freshId: string)
    ensures
      var a, b := WireLaws.Received(ev, t, ""), WireLaws.Received(ev, t, freshId);
      a.action == b.action && a.event == b.event && a.nodeId == b.nodeId && a.payload == b.payload
  {}

  lemma TakeStepSound(w: World, node: string, op: Op, env: Env, home: Homes)
    requires NodesSound(w, home) && NetSound(w, home) && node in w.nodes
    requires Enumerates(env.keys, w.nodes[node].connections)
    requires op.Add? ==> home(op.id) == node
    requires op.Receive? && Decode(op.data, env.freshId).Some? ==> Genuine(Decode(op.data, env.freshId).value, home)
    ensures NodesSound(TakeStep(w, node, op, env), home) && NetSound(TakeStep(w, node, op, env), home)
  {
    var s := w.nodes[node];
    StepPartitioned(s, op, env, home);
    StepIdentity(s, op, env);
    SendsGenuine(s, op, env, home);
  }

  lemma OpenSound(node: string, channel: string, rid: string, home: Homes)
    requires node != ""
    ensures
      var s := Start(Fresh(channel, node, true));
      s.nodeId == node && Partitioned(s, home) && AllGenuine(RequestStateSends(s, rid), home)
  {
    var s := Start(Fresh(channel, node, true));
    NeutralGenuine(s, StateRequestEvent(channel, rid, node), "state:request", home);
  }

  lemma NextSound(w: World, a: Action, env: Env, home: Homes)
    requires NodesSound(w, home) && NetSound(w, home) && Enabled(w, a, env, home)
    ensures NodesSound(Next(w, a, env), home) && NetSound(Next(w, a, env), home)
  {
    match a
    case Open(node, channel) =>
      OpenSound(node, channel, env.freshId, home);
    case Local(node, op) =>
      if node in w.nodes { TakeStepSound(w, node, op, env, home); }
    case Deliver(node, what, endpoint, messageId, timestamp) =>
      if node in w.nodes {
        ReadWithOtherId(what, env.freshId, home);
        WireLaws.CodecRoundTrip(what.ev, what.subtype, endpoint, messageId, timestamp, env.freshId);
        TakeStepSound(w, node, Receive(Bytes(what, endpoint, messageId, timestamp)), env, home);
      }
  }

  lemma {:induction false} RunSound(w: World, actions: seq<(Action, Env)>, home: Homes)
    requires NodesSound(w, home) && NetSound(w, home) && AllEnabled(w, actions, home)
    ensures NodesSound(Run(w, actions), home) && NetSound(Run(w, actions), home)
    decreases |actions|
  {
    if actions != [] {
      NextSound(w, actions[0].0, actions[0].1, home);
      RunSound(Next(w, actions[0].0, actions[0].1), actions[1..], home);
    }
  }

  // ---------- what it means ----------

  /** The ids with assigns are exactly the connected users and the users recorded under other nodes, and
      no user is both; no node is recorded without users, and every recorded node has a last-seen time. */
  ghost predicate DataFollowsUsers(s: State) {
    var remote := UsersOf(s.nodeUsers, s.nodeUsers.Keys);
    && s.assigns.Keys == s.connections + remote
    && s.connections !! remote
    && (forall m, n | m in s.nodeUsers && n in s.nodeUsers && m != n :: s.nodeUsers[m] !! s.nodeUsers[n])
    && (forall n <- s.nodeUsers :: s.nodeUsers[n] != {} && n in s.lastSeen)
  }

  lemma PartitionedMeans(s: State, home: Homes)
    requires Partitioned(s, home)
    ensures DataFollowsUsers(s)
    ensures NoUsersAnywhere(s) ==> s.assigns == map[] && s.nodeUsers == map[]
  {
    var remote := UsersOf(s.nodeUsers, s.nodeUsers.Keys);
    forall u ensures u in s.assigns <==> u in s.connections + remote { AssignsAt(s, u, home); }
    assert s.assigns.Keys == s.connections + remote;
    forall u | u in s.connections ensures u !in remote { AssignsAt(s, u, home); }
    forall m, n | m in s.nodeUsers && n in s.nodeUsers && m != n ensures s.nodeUsers[m] !! s.nodeUsers[n] {
      forall u ensures u !in s.nodeUsers[m] || u !in s.nodeUsers[n] { assert UserRight(s, u, home); }
    }
    forall n | n in s.nodeUsers ensures s.nodeUsers[n] != {} && n in s.lastSeen { assert NodeRight(s, n); }
    if NoUsersAnywhere(s) {
      assert s.nodeUsers.Keys == {};
      assert remote == {} && s.assigns.Keys == {};
    }
  }

  lemma AssignsAt(s: State, u: string, home: Homes)
    requires Partitioned(s, home)
    ensures var remote := UsersOf(s.nodeUsers, s.nodeUsers.Keys);
            (u in s.assigns <==> u in s.connections || u in remote) && !(u in s.connections && u in remote)
  {
    assert UserRight(s, u, home) && NodeRight(s, s.nodeId);
    UserOfStale(s, s.nodeUsers.Keys, u, home);
  }

  /** In every run over a network that reorders, duplicates and loses messages, with every user added at one
      node only, each node's data follows its users; an idle channel therefore holds no assigns. */
  lemma ReplicaPartition(actions: seq<(Action, Env)>, home: Homes, n: string)
    requires AllEnabled(EMPTY, actions, home) && n in Run(EMPTY, actions).nodes
    ensures
      var s := Run(EMPTY, actions).nodes[n];
      DataFollowsUsers(s) && (NoUsersAnywhere(s) ==> s.assigns == map[])
  {
    RunSound(EMPTY, actions, home);
    PartitionedMeans(Run(EMPTY, actions).nodes[n], home);
  }
}
