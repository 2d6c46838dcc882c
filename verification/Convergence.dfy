/** A cluster whose messages arrive in order and without loss: what every node eventually knows of every other. */
module Convergence {
  import opened Json
  import opened Wire
  import opened ChannelSpec
  import opened NodeSteps
  import opened Partition
  import opened Views
  import Cluster
  import WireLaws

  type Pair = (string, string)

  /** `queues[(s, d)]` holds what `s` published and `d` has not handled yet; a node that is not active has no
      subscription. `told` holds the pairs (s, d) such that since `d` opened its channel `s` has opened its own or
      told a state request, and `d` has not dropped `s` as stale after that. */
  datatype World = World(
    nodes: map<string, State>,
    queues: map<Pair, seq<Publication>>,
    told: set<Pair>)

  datatype Action =
    | Open(node: string)
    | Leave(node: string)
    | Local(node: string, op: Op)
    | Deliver(src: string, node: string, endpoint: string, messageId: string, timestamp: int)

  function Initial(ids: set<string>, channel: string): World {
    World(map n | n in ids :: Fresh(channel, n, true), map s, d | s in ids && d in ids :: (s, d) := [], {})
  }

  function Enqueued(w: World, n: string, sent: seq<Publication>): map<Pair, seq<Publication>> {
    map p | p in w.queues ::
      if p.0 == n && p.1 != n && p.1 in w.nodes && w.nodes[p.1].active then w.queues[p] + sent else w.queues[p]
  }

  /** The pairs that a step of `n` takes out, or puts in by an answer. */
  function ToldAfter(w: World, n: string, op: Op, env: Env): set<Pair>
    requires n in w.nodes
  {
    var s := w.nodes[n];
    var kept := if op.Sweep? then set p | p in w.told && !(p.1 == n && p.0 in StaleNodes(s.lastSeen, env.now, op.timeout))
                else w.told;
    if IsStateRequest(s, op, env) then kept + set p | p in w.queues && p.0 == n && p.1 in w.nodes && w.nodes[p.1].active
    else kept
  }

  function NodeStep(w: World, n: string, op: Op, env: Env): World
    requires n in w.nodes
  {
    World(w.nodes[n := Step(w.nodes[n], op, env)],
          Enqueued(w, n, Sends(w.nodes[n], op, env)),
          ToldAfter(w, n, op, env))
  }

  /** The nodes that are open, apart from `n`, are told all that `n` publishes from now on; `n` is told nothing yet. */
  function ToldAfterOpening(w: World, n: string): set<Pair> {
    (set p | p in w.told && p.1 != n) + (set p | p in w.queues && p.0 == n && p.1 != n && p.1 in w.nodes && w.nodes[p.1].active)
  }

  /** The opened node starts empty, subscribed, and asks the others for their users. */
  function Opened(w: World, n: string, env: Env): World
    requires n in w.nodes
  {
    var s := Start(Fresh(w.nodes[n].name, n, true));
    var cleared := World(w.nodes[n := s], map p | p in w.queues :: if p.1 == n then [] else w.queues[p],
                         ToldAfterOpening(w, n));
    cleared.(queues := Enqueued(cleared, n, RequestStateSends(s, env.freshId)))
  }

  function Popped(w: World, src: string, n: string): World
    requires (src, n) in w.queues && w.queues[(src, n)] != []
  {
    w.(queues := w.queues[(src, n) := w.queues[(src, n)][1..]])
  }

  function Next(w: World, a: Action, env: Env): World
    requires a.node in w.nodes && (a.Deliver? ==> (a.src, a.node) in w.queues && w.queues[(a.src, a.node)] != [])
  {
    match a
    case Open(n) => Opened(w, n, env)
    case Leave(n) =>
      w.(nodes := w.nodes[n := Close(w.nodes[n])], told := set p | p in w.told && p.1 != n)
    case Local(n, op) => NodeStep(w, n, op, env)
    case Deliver(src, n, endpoint, messageId, timestamp) =>
      var head := w.queues[(src, n)][0];
      NodeStep(Popped(w, src, n), n, Receive(Bytes(head, endpoint, messageId, timestamp)), env)
  }

  /** A channel is opened when closed and closed when it has no users; users are added, and have assigns set,
      at their home; a message is delivered from the head of its queue. */
  ghost predicate Enabled(w: World, a: Action, env: Env, home: Homes) {
    && a.node in w.nodes
    && Enumerates(env.keys, w.nodes[a.node].connections)
    && match a
       case Open(n) => !w.nodes[n].active
       case Leave(n) => w.nodes[n].active && w.nodes[n].connections == {}
       case Local(n, op) =>
         w.nodes[n].active && !op.Receive? && !op.Shut? && (op.Add? || op.SetAssign? ==> home(op.id) == n)
       case Deliver(src, n, _, _, _) =>
         w.nodes[n].active && src in w.nodes && src != n && (src, n) in w.queues && w.queues[(src, n)] != []
  }

  // ---------- the invariant ----------

  ghost predicate NodesSound(w: World, channel: string, home: Homes) {
    forall n <- w.nodes :: NodeSound(w.nodes[n], n, channel, home)
  }

  ghost predicate NodeSound(s: State, n: string, channel: string, home: Homes) {
    && s.nodeId == n && s.name == channel && s.distributed && Partitioned(s, home)
    && (!s.active ==> s.connections == {})
  }

  ghost predicate Good(p: Publication, src: string, channel: string, home: Homes) {
    var ev := ReadAs(p, "");
    ev.nodeId == src && ev.channelName == channel && Genuine(ev, home) && FromHome(ev, home)
  }

  ghost predicate AllGood(sent: seq<Publication>, src: string, channel: string, home: Homes) {
    forall p <- sent :: Good(p, src, channel, home)
  }

  /** Folding what is still queued over what is held never goes beyond what the source has, and gives exactly
      that once the source has told. */
  predicate Ahead(view: View, queue: seq<Publication>, own: View, told: bool) {
    var ahead := Effects(view, queue);
    Sub(ahead, own) && (told ==> ahead == own)
  }

  predicate PairSound(w: World, s: string, d: string, home: Homes)
    requires s in w.nodes && d in w.nodes && (s, d) in w.queues
  {
    w.nodes[d].active && s != d ==>
      Ahead(ViewOf(w.nodes[d], s, home), w.queues[(s, d)], Own(w.nodes[s], home), (s, d) in w.told)
  }

  ghost predicate QueuesSound(w: World, channel: string, home: Homes) {
    forall s, d | s in w.nodes && d in w.nodes :: (s, d) in w.queues && AllGood(w.queues[(s, d)], s, channel, home)
  }

  ghost predicate Sound(w: World, channel: string, home: Homes) {
    && "" !in w.nodes
    && NodesSound(w, channel, home)
    && QueuesSound(w, channel, home)
    && (forall s, d {:trigger PairSound(w, s, d, home)} | s in w.nodes && d in w.nodes :: PairSound(w, s, d, home))
  }

  // ---------- what a node publishes is good ----------

  lemma ReadKeepsOrigin(p: Publication, freshId: string)
    ensures ReadAs(p, freshId).nodeId == p.ev.nodeId && ReadAs(p, freshId).channelName == p.ev.channelName
  {}

  predicate Origin(sent: seq<Publication>, src: string, channel: string) {
    forall p <- sent :: p.ev.nodeId == src && p.ev.channelName == channel
  }

  lemma SendsOrigin(s: State, op: Op, env: Env)
    ensures Origin(Sends(s, op, env), s.nodeId, s.name)
  {
    if op.Receive? && Decode(op.data, env.freshId).Some? { DispatchOrigin(s, Decode(op.data, env.freshId).value, env); }
  }

  lemma DispatchOrigin(s: State, ev: Event, env: Env)
    ensures Origin(DispatchSends(s, ev, env), s.nodeId, s.name)
  {}

  predicate NoAssigns(sent: seq<Publication>) {
    forall p <- sent :: p.ev.action != ASSIGNS
  }

  lemma NoAssignsSent(s: State, op: Op, env: Env)
    requires !op.SetAssign?
    ensures NoAssigns(Sends(s, op, env))
  {
    if op.Receive? {
      if Decode(op.data, env.freshId).Some? { NoAssignsDispatched(s, Decode(op.data, env.freshId).value, env); }
    } else {
      NoAssignsLocally(s, op, env);
    }
  }

  lemma NoAssignsDispatched(s: State, ev: Event, env: Env)
    ensures NoAssigns(DispatchSends(s, ev, env))
  {}

  lemma NoAssignsLocally(s: State, op: Op, env: Env)
    requires !op.SetAssign? && !op.Receive?
    ensures NoAssigns(Sends(s, op, env))
  {}

  lemma NoAssignsRead(p: Publication, home: Homes)
    requires p.ev.action != ASSIGNS
    ensures FromHome(ReadAs(p, ""), home)
  {}

  lemma AssignsFromHome(s: State, id: string, key: string, value: Value, rid: string, home: Homes)
    requires home(id) == s.nodeId
    ensures forall p <- UpdateAssignSends(s, id, key, value, rid) :: FromHome(ReadAs(p, ""), home)
  {}

  lemma SendsGood(s: State, op: Op, env: Env, home: Homes)
    requires Partitioned(s, home) && Enumerates(env.keys, s.connections)
    requires op.Add? || op.SetAssign? ==> home(op.id) == s.nodeId
    ensures AllGood(Sends(s, op, env), s.nodeId, s.name, home)
  {
    var sent := Sends(s, op, env);
    SendsGenuine(s, op, env, home);
    SendsOrigin(s, op, env);
    if op.SetAssign? { AssignsFromHome(s, op.id, op.key, op.value, env.freshId, home); } else { NoAssignsSent(s, op, env); }
    forall p | p in sent ensures Good(p, s.nodeId, s.name, home) {
      ReadKeepsOrigin(p, "");
      if !op.SetAssign? { NoAssignsRead(p, home); }
    }
  }

  // ---------- what a step does to the views ----------

  lemma LocalView(s: State, op: Op, env: Env, node: string, home: Homes)
    requires Partitioned(s, home) && node != s.nodeId
    requires !op.Receive? && !op.Sweep? && !op.Shut? && (op.Add? || op.SetAssign? ==> home(op.id) == s.nodeId)
    ensures ViewOf(Step(s, op, env), node, home) == ViewOf(s, node, home)
  {
    forall u | u in s.connections ensures home(u) == s.nodeId { assert UserRight(s, u, home); }
    if op.Remove? || op.Evict? {
      RemovedView(s, op.id, node, home);
    } else if op.Add? || op.SetAssign? {
      HomeView(s, op, env, node, home);
    }
  }

  lemma HomeView(s: State, op: Op, env: Env, node: string, home: Homes)
    requires node != s.nodeId && (op.Add? || op.SetAssign?) && home(op.id) == s.nodeId
    ensures ViewOf(Step(s, op, env), node, home) == ViewOf(s, node, home)
  {
    if op.Add? {
      var t := AddUser(s, op.id, op.assigns).0;
      OneUserView(s, t, op.id, node, home);
    } else {
      var t := UpdateAssign(s, op.id, op.key, op.value).0;
      OneUserView(s, t, op.id, node, home);
    }
  }

  lemma OneUserView(s: State, t: State, id: string, node: string, home: Homes)
    requires home(id) != node && (t.assigns == s.assigns || (id in t.assigns && t.assigns == s.assigns[id := t.assigns[id]]))
    ensures ViewOf(t, node, home) == ViewOf(s, node, home)
  {}

  lemma SweepView(s: State, now: int, timeout: int, node: string, home: Homes)
    requires Partitioned(s, home)
    ensures Sub(ViewOf(CleanupStaleNodes(s, now, timeout), node, home), ViewOf(s, node, home))
    ensures node !in StaleNodes(s.lastSeen, now, timeout) ==>
              ViewOf(CleanupStaleNodes(s, now, timeout), node, home) == ViewOf(s, node, home)
  {
    var stale := StaleNodes(s.lastSeen, now, timeout);
    forall u | home(u) == node && node !in stale ensures u !in UsersOf(s.nodeUsers, stale) {
      UserOfStale(s, stale, u, home);
    }
  }

  lemma ReadTheSame(p: Publication, freshId: string, src: string, channel: string, home: Homes, v: View)
    requires Good(p, src, channel, home)
    ensures var ev := ReadAs(p, freshId);
            ev.nodeId == src && ev.channelName == channel && Genuine(ev, home) && FromHome(ev, home)
            && Effect(v, ev) == Effect(v, ReadAs(p, ""))
  {
    var t := Classify(p.ev, p.subtype);
    Cluster.SamePayload(p.ev, t, freshId);
    ReadKeepsOrigin(p, freshId);
    ReadKeepsOrigin(p, "");
    SameEffect(v, ReadAs(p, ""), ReadAs(p, freshId));
  }

  lemma SameEffect(v: View, a: Event, b: Event)
    requires a.action == b.action && a.event == b.event && a.payload == b.payload
    ensures Effect(v, a) == Effect(v, b)
  {}

  /** Handling a message that reads as a publication of another node does to the view of that node what it says. */
  lemma DeliveryView(d: State, p: Publication, src: string, data: Value, env: Env, node: string, channel: string, home: Homes)
    requires NodeSound(d, d.nodeId, channel, home) && src != d.nodeId && node != d.nodeId && Good(p, src, channel, home)
    requires Decode(data, env.freshId) == Some(ReadAs(p, env.freshId))
    ensures
      ViewOf(HandleMessage(d, data, env), node, home)
      == if node == src then Effect(ViewOf(d, src, home), ReadAs(p, "")) else ViewOf(d, node, home)
  {
    ReadTheSame(p, env.freshId, src, channel, home, ViewOf(d, src, home));
    forall u | u in d.connections ensures home(u) == d.nodeId { assert UserRight(d, u, home); }
    DispatchView(d, ReadAs(p, env.freshId), env, node, home);
  }

  lemma DeliveryAtHome(d: State, p: Publication, src: string, data: Value, env: Env, channel: string, home: Homes)
    requires Good(p, src, channel, home) && Decode(data, env.freshId) == Some(ReadAs(p, env.freshId))
    ensures AtHome(d, Receive(data), env, home)
  {
    ReadTheSame(p, env.freshId, src, channel, home, map[]);
  }

  // ---------- the invariant of a pair ----------

  lemma SourceStep(view: View, queue: seq<Publication>, own: View, told: bool, sent: seq<Publication>, own': View,
                   answers: bool)
    requires Ahead(view, queue, own, told) && Tells(own, sent, own')
    requires answers ==> forall v: View | Sub(v, own) :: Effects(v, sent) == own'
    ensures Ahead(view, queue + sent, own', told || answers)
  {
    EffectsConcat(view, queue, sent);
    var ahead := Effects(view, queue);
    assert Sub(ahead, own);
    if answers { assert Effects(ahead, sent) == own'; }
  }

  lemma HeadHandled(view: View, queue: seq<Publication>, own: View, told: bool)
    requires queue != [] && Ahead(view, queue, own, told)
    ensures Ahead(Effect(view, ReadAs(queue[0], "")), queue[1..], own, told)
  {}

  lemma ViewShrunk(view: View, view': View, queue: seq<Publication>, own: View, told: bool)
    requires Ahead(view, queue, own, told) && Sub(view', view)
    ensures Ahead(view', queue, own, false)
  {
    EffectsMonotone(view', view, queue);
  }

  /** What a step of `n` publishes keeps the pairs (n, d) sound; a state request it handles is an answer. */
  lemma SourceSide(s: State, op: Op, env: Env, view: View, queue: seq<Publication>, told: bool, n: string,
                   channel: string, home: Homes)
    requires NodeSound(s, n, channel, home) && Enumerates(env.keys, s.connections) && AtHome(s, op, env, home) && !op.Shut?
    requires Ahead(view, queue, Own(s, home), told)
    ensures Ahead(view, queue + Sends(s, op, env), Own(Step(s, op, env), home), told || IsStateRequest(s, op, env))
  {
    StepTold(s, op, env, home);
    if IsStateRequest(s, op, env) { RequestAnswered(s, op, env, home); }
    SourceStep(view, queue, Own(s, home), told, Sends(s, op, env), Own(Step(s, op, env), home), IsStateRequest(s, op, env));
  }

  lemma RequestStep(s: State, op: Op, env: Env)
    requires IsStateRequest(s, op, env)
    ensures Step(s, op, env) == s && Sends(s, op, env) == HandleStateRequestSends(s, env.keys, env.freshId)
  {}

  lemma RequestAnswered(s: State, op: Op, env: Env, home: Homes)
    requires s.distributed && Partitioned(s, home) && Enumerates(env.keys, s.connections) && IsStateRequest(s, op, env)
    ensures forall v: View | Sub(v, Own(s, home)) :: Effects(v, Sends(s, op, env)) == Own(Step(s, op, env), home)
  {
    RequestStep(s, op, env);
    forall v: View | Sub(v, Own(s, home)) ensures Effects(v, HandleStateRequestSends(s, env.keys, env.freshId)) == Own(s, home) {
      AnswerTold(v, s, env.keys, env.freshId, home);
    }
  }

  /** The views that node `n` has in state `t`. */
  predicate OwnViewsSound(w: World, n: string, t: State, told: set<Pair>, home: Homes)
    requires n in w.nodes && forall s <- w.nodes :: (s, n) in w.queues
  {
    forall s <- w.nodes :: s != n ==>
      Ahead(ViewOf(t, s, home), w.queues[(s, n)], Own(w.nodes[s], home), (s, n) in told)
  }

  lemma NodeStepSound(w: World, n: string, op: Op, env: Env, channel: string, home: Homes)
    requires "" !in w.nodes && NodesSound(w, channel, home) && QueuesSound(w, channel, home)
    requires n in w.nodes && w.nodes[n].active && Enumerates(env.keys, w.nodes[n].connections)
    requires AtHome(w.nodes[n], op, env, home) && !op.Shut?
    requires forall s, d | s in w.nodes && d in w.nodes && d != n :: PairSound(w, s, d, home)
    requires OwnViewsSound(w, n, Step(w.nodes[n], op, env), ToldAfter(w, n, op, env), home)
    ensures Sound(NodeStep(w, n, op, env), channel, home)
  {
    StepNodes(w, n, op, env, channel, home);
    StepQueues(w, n, op, env, channel, home);
    forall a, d | a in w.nodes && d in w.nodes ensures PairSound(NodeStep(w, n, op, env), a, d, home) {
      if d != n { StepPair(w, n, op, env, a, d, channel, home); }
    }
  }

  lemma StepNodes(w: World, n: string, op: Op, env: Env, channel: string, home: Homes)
    requires NodesSound(w, channel, home) && n in w.nodes && w.nodes[n].active && AtHome(w.nodes[n], op, env, home) && !op.Shut?
    ensures NodesSound(NodeStep(w, n, op, env), channel, home)
  {
    StepNodeSound(w.nodes[n], n, op, env, channel, home);
  }

  lemma StepQueues(w: World, n: string, op: Op, env: Env, channel: string, home: Homes)
    requires "" !in w.nodes && NodesSound(w, channel, home) && QueuesSound(w, channel, home)
    requires n in w.nodes && Enumerates(env.keys, w.nodes[n].connections) && AtHome(w.nodes[n], op, env, home)
    ensures QueuesSound(NodeStep(w, n, op, env), channel, home)
  {
    var w' := NodeStep(w, n, op, env);
    assert NodeSound(w.nodes[n], n, channel, home);
    SendsGood(w.nodes[n], op, env, home);
    forall a, d | a in w'.nodes && d in w'.nodes
      ensures (a, d) in w'.queues && AllGood(w'.queues[(a, d)], a, channel, home)
    {
      assert (a, d) in w.queues && AllGood(w.queues[(a, d)], a, channel, home);
    }
  }

  lemma StepPair(w: World, n: string, op: Op, env: Env, a: string, d: string, channel: string, home: Homes)
    requires NodesSound(w, channel, home) && n in w.nodes && w.nodes[n].active
    requires Enumerates(env.keys, w.nodes[n].connections) && AtHome(w.nodes[n], op, env, home) && !op.Shut?
    requires a in w.nodes && d in w.nodes && d != n && (a, d) in w.queues && PairSound(w, a, d, home)
    ensures (a, d) in NodeStep(w, n, op, env).queues && PairSound(NodeStep(w, n, op, env), a, d, home)
  {
    if a != n || !w.nodes[d].active {
      PairUntouched(w, n, op, env, a, d, home);
    } else {
      var s := w.nodes[n];
      SourceSide(s, op, env, ViewOf(w.nodes[d], n, home), w.queues[(n, d)], (n, d) in w.told, n, channel, home);
    }
  }

  lemma PairUntouched(w: World, n: string, op: Op, env: Env, a: string, d: string, home: Homes)
    requires n in w.nodes && a in w.nodes && d in w.nodes && d != n && (a, d) in w.queues && PairSound(w, a, d, home)
    requires a != n || !w.nodes[d].active
    ensures (a, d) in NodeStep(w, n, op, env).queues && PairSound(NodeStep(w, n, op, env), a, d, home)
  {}

  lemma StepNodeSound(s: State, n: string, op: Op, env: Env, channel: string, home: Homes)
    requires NodeSound(s, n, channel, home) && s.active && AtHome(s, op, env, home) && !op.Shut?
    ensures NodeSound(Step(s, op, env), n, channel, home)
  {
    StepPartitioned(s, op, env, home);
    StepIdentity(s, op, env);
  }

  // ---------- every action keeps the invariant ----------

  lemma OpenQueues(w: World, n: string, env: Env, channel: string, home: Homes)
    requires QueuesSound(w, channel, home) && n in w.nodes && n != "" && w.nodes[n].name == channel
    ensures QueuesSound(Opened(w, n, env), channel, home)
  {
    var w' := Opened(w, n, env);
    OpenedNode(Start(Fresh(channel, n, true)), n, env.freshId, channel, home);
    forall a, d | a in w'.nodes && d in w'.nodes
      ensures (a, d) in w'.queues && AllGood(w'.queues[(a, d)], a, channel, home)
    {
      assert (a, d) in w.queues && AllGood(w.queues[(a, d)], a, channel, home);
    }
  }

  lemma OpenQueueOf(w: World, n: string, env: Env, a: string, d: string)
    requires n in w.nodes && a in w.nodes && d in w.nodes && (a, d) in w.queues
    ensures
      var w' := Opened(w, n, env);
      && (a, d) in w'.queues
      && ((a, d) in w'.told <==> d != n && ((a, d) in w.told || (a == n && w.nodes[d].active)))
      && (d == n ==> w'.queues[(a, d)] == [])
      && (d != n && a != n ==> w'.queues[(a, d)] == w.queues[(a, d)])
      && (d != n && a == n && w.nodes[d].active ==>
            w'.queues[(a, d)] == w.queues[(a, d)] + RequestStateSends(w'.nodes[n], env.freshId))
  {}

  lemma OpenPair(w: World, n: string, env: Env, a: string, d: string, channel: string, home: Homes)
    requires n != "" && n in w.nodes && !w.nodes[n].active && NodeSound(w.nodes[n], n, channel, home)
    requires a in w.nodes && d in w.nodes && (a, d) in w.queues && PairSound(w, a, d, home)
    ensures (a, d) in Opened(w, n, env).queues && PairSound(Opened(w, n, env), a, d, home)
  {
    OpenQueueOf(w, n, env, a, d);
    if d == n {
      NewPair(w, n, env, a, home);
    } else if a == n && w.nodes[d].active {
      AskPair(w, n, env, d, channel, home);
    }
  }

  lemma AskPair(w: World, n: string, env: Env, d: string, channel: string, home: Homes)
    requires n in w.nodes && n != "" && d in w.nodes && d != n && w.nodes[d].active && (n, d) in w.queues
    requires NodeSound(w.nodes[n], n, channel, home) && !w.nodes[n].active && PairSound(w, n, d, home)
    ensures (n, d) in Opened(w, n, env).queues && PairSound(Opened(w, n, env), n, d, home)
  {
    OpenQueueOf(w, n, env, n, d);
    OpenedPairAhead(w.nodes[n], ViewOf(w.nodes[d], n, home), w.queues[(n, d)], (n, d) in w.told, n, env.freshId,
                    channel, home);
  }

  /** The opened node holds nothing, and nothing has been told to it. */
  lemma NewPair(w: World, n: string, env: Env, a: string, home: Homes)
    requires n in w.nodes && a in w.nodes && (a, n) in w.queues
    ensures (a, n) in Opened(w, n, env).queues && PairSound(Opened(w, n, env), a, n, home)
  {
    OpenQueueOf(w, n, env, a, n);
  }

  /** A closed node has no users, so nobody can hold more than it has, and from its opening on all is told. */
  lemma OpenedPairAhead(closed: State, view: View, queue: seq<Publication>, told: bool, n: string, rid: string,
                        channel: string, home: Homes)
    requires NodeSound(closed, n, channel, home) && !closed.active && n != ""
    requires Ahead(view, queue, Own(closed, home), told)
    ensures var s := Start(Fresh(channel, n, true));
            Ahead(view, queue + RequestStateSends(s, rid), Own(s, home), true)
  {
    var s := Start(Fresh(channel, n, true));
    OpenedNode(s, n, rid, channel, home);
    OwnUsers(closed, home);
    assert Own(closed, home) == map[] == Own(s, home);
    TellsFromFull(map[], RequestStateSends(s, rid), map[]);
    assert Effects(view, queue) == map[];
    SourceStep(view, queue, map[], true, RequestStateSends(s, rid), map[], false);
  }

  lemma OpenSound(w: World, n: string, env: Env, channel: string, home: Homes)
    requires Sound(w, channel, home) && n in w.nodes && !w.nodes[n].active
    ensures Sound(Opened(w, n, env), channel, home)
  {
    assert NodeSound(w.nodes[n], n, channel, home);
    OpenQueues(w, n, env, channel, home);
    OpenedNode(Start(Fresh(channel, n, true)), n, env.freshId, channel, home);
    forall a, d | a in w.nodes && d in w.nodes ensures PairSound(Opened(w, n, env), a, d, home) {
      OpenPair(w, n, env, a, d, channel, home);
    }
  }

  lemma OpenedNode(s: State, n: string, rid: string, channel: string, home: Homes)
    requires s == Start(Fresh(channel, n, true)) && n != ""
    ensures NodeSound(s, n, channel, home) && AllGood(RequestStateSends(s, rid), n, channel, home)
    ensures Effects(map[], RequestStateSends(s, rid)) == map[]
  {
    NeutralGenuine(s, StateRequestEvent(channel, rid, n), "state:request", home);
    SilentTold(map[], s, StateRequestEvent(channel, rid, n), "state:request");
  }

  lemma LeaveSound(w: World, n: string, env: Env, channel: string, home: Homes)
    requires Sound(w, channel, home) && n in w.nodes && w.nodes[n].connections == {}
    ensures Sound(Next(w, Leave(n), env), channel, home)
  {
    var w' := Next(w, Leave(n), env);
    assert Own(w.nodes[n], home) == Own(Close(w.nodes[n]), home) by { LeftEmpty(w.nodes[n], n, channel, home); }
    forall a, d | a in w'.nodes && d in w'.nodes ensures PairSound(w', a, d, home) {
      LeavePair(w, n, env, a, d, home);
    }
  }

  lemma LeftEmpty(s: State, n: string, channel: string, home: Homes)
    requires NodeSound(s, n, channel, home) && s.connections == {}
    ensures Own(s, home) == map[] == Own(Close(s), home)
  {
    OwnUsers(s, home);
  }

  lemma LeavePair(w: World, n: string, env: Env, a: string, d: string, home: Homes)
    requires n in w.nodes && a in w.nodes && d in w.nodes && (a, d) in w.queues && PairSound(w, a, d, home)
    requires Own(w.nodes[n], home) == Own(Close(w.nodes[n]), home)
    ensures PairSound(Next(w, Leave(n), env), a, d, home)
  {}

  lemma LocalSound(w: World, n: string, op: Op, env: Env, channel: string, home: Homes)
    requires Sound(w, channel, home) && Enabled(w, Local(n, op), env, home)
    ensures Sound(NodeStep(w, n, op, env), channel, home)
  {
    var d := w.nodes[n];
    forall s | s in w.nodes && s != n
      ensures Ahead(ViewOf(Step(d, op, env), s, home), w.queues[(s, n)], Own(w.nodes[s], home),
                    (s, n) in ToldAfter(w, n, op, env))
    {
      assert PairSound(w, s, n, home);
      if op.Sweep? {
        SweepView(d, env.now, op.timeout, s, home);
        ViewShrunk(ViewOf(d, s, home), ViewOf(Step(d, op, env), s, home), w.queues[(s, n)], Own(w.nodes[s], home),
                   (s, n) in w.told);
      } else {
        LocalView(d, op, env, s, home);
      }
    }
    NodeStepSound(w, n, op, env, channel, home);
  }

  lemma PopQueues(w: World, src: string, n: string, channel: string, home: Homes)
    requires QueuesSound(w, channel, home) && src in w.nodes && n in w.nodes
    requires (src, n) in w.queues && w.queues[(src, n)] != []
    ensures QueuesSound(Popped(w, src, n), channel, home)
  {
    var w1 := Popped(w, src, n);
    forall a, b | a in w1.nodes && b in w1.nodes
      ensures (a, b) in w1.queues && AllGood(w1.queues[(a, b)], a, channel, home)
    {
      assert (a, b) in w.queues && AllGood(w.queues[(a, b)], a, channel, home);
    }
  }

  /** `data` reads as the head of the queue from `src` to the open node `n`. */
  ghost predicate Delivers(w: World, src: string, n: string, data: Value, env: Env) {
    && n in w.nodes && w.nodes[n].active && Enumerates(env.keys, w.nodes[n].connections)
    && src in w.nodes && src != n && (src, n) in w.queues && w.queues[(src, n)] != []
    && Decode(data, env.freshId) == Some(ReadAs(w.queues[(src, n)][0], env.freshId))
  }

  /** The view of any node `s` after the head of the queue from `src` was handled. */
  lemma PairAfterDelivery(w: World, src: string, n: string, data: Value, env: Env, t: State, s: string, channel: string,
                          home: Homes)
    requires Sound(w, channel, home) && Delivers(w, src, n, data, env) && s in w.nodes && s != n
    requires t == HandleMessage(w.nodes[n], data, env)
    ensures
      var queue := w.queues[(src, n)];
      (s, n) in w.queues
      && Ahead(ViewOf(t, s, home), if s == src then queue[1..] else w.queues[(s, n)], Own(w.nodes[s], home),
               (s, n) in w.told)
  {
    var d, queue := w.nodes[n], w.queues[(src, n)];
    assert NodeSound(d, n, channel, home) && AllGood(queue, src, channel, home);
    assert (s, n) in w.queues && PairSound(w, s, n, home);
    DeliveryView(d, queue[0], src, data, env, s, channel, home);
    if s == src { HeadHandled(ViewOf(d, src, home), queue, Own(w.nodes[src], home), (src, n) in w.told); }
  }

  lemma ViewsAfterDelivery(w: World, src: string, n: string, data: Value, env: Env, t: State, channel: string, home: Homes)
    requires Sound(w, channel, home) && Delivers(w, src, n, data, env) && forall s <- w.nodes :: (s, n) in w.queues
    requires t == HandleMessage(w.nodes[n], data, env)
    ensures OwnViewsSound(Popped(w, src, n), n, t, w.told, home)
  {
    forall s | s in w.nodes && s != n
      ensures Ahead(ViewOf(t, s, home), Popped(w, src, n).queues[(s, n)], Own(w.nodes[s], home), (s, n) in w.told)
    {
      PairAfterDelivery(w, src, n, data, env, t, s, channel, home);
    }
  }

  lemma Handles(s: State, data: Value, env: Env)
    ensures Step(s, Receive(data), env) == HandleMessage(s, data, env)
  {}

  /** Handling a message takes no answer away from the acting node. */
  lemma AnswersKept(w: World, n: string, op: Op, env: Env, home: Homes, t: State)
    requires n in w.nodes && op.Receive? && forall s <- w.nodes :: (s, n) in w.queues
    requires OwnViewsSound(w, n, t, w.told, home)
    ensures OwnViewsSound(w, n, t, ToldAfter(w, n, op, env), home)
  {}

  lemma DeliveryReady(w: World, src: string, n: string, data: Value, env: Env, w1: World, channel: string, home: Homes)
    requires Sound(w, channel, home) && Delivers(w, src, n, data, env) && w1 == Popped(w, src, n)
    ensures NodesSound(w1, channel, home) && QueuesSound(w1, channel, home) && AtHome(w1.nodes[n], Receive(data), env, home)
    ensures forall a, b | a in w1.nodes && b in w1.nodes && b != n :: PairSound(w1, a, b, home)
  {
    assert AllGood(w.queues[(src, n)], src, channel, home);
    DeliveryAtHome(w.nodes[n], w.queues[(src, n)][0], src, data, env, channel, home);
    PopQueues(w, src, n, channel, home);
    PoppedPairs(w, w1, src, n, home);
  }

  lemma QueuesThere(w: World, n: string, channel: string, home: Homes)
    requires QueuesSound(w, channel, home) && n in w.nodes
    ensures forall s <- w.nodes :: (s, n) in w.queues
  {}

  lemma DeliverSound(w: World, src: string, n: string, data: Value, env: Env, channel: string, home: Homes)
    requires Sound(w, channel, home) && Delivers(w, src, n, data, env)
    ensures Sound(NodeStep(Popped(w, src, n), n, Receive(data), env), channel, home)
  {
    var w1 := Popped(w, src, n);
    DeliveryReady(w, src, n, data, env, w1, channel, home);
    QueuesThere(w, n, channel, home);
    QueuesThere(w1, n, channel, home);
    Handles(w.nodes[n], data, env);
    ViewsAfterDelivery(w, src, n, data, env, Step(w.nodes[n], Receive(data), env), channel, home);
    HandledSound(w1, n, Receive(data), env, channel, home);
  }

  lemma HandledSound(w: World, n: string, op: Op, env: Env, channel: string, home: Homes)
    requires "" !in w.nodes && NodesSound(w, channel, home) && QueuesSound(w, channel, home)
    requires n in w.nodes && w.nodes[n].active && Enumerates(env.keys, w.nodes[n].connections)
    requires AtHome(w.nodes[n], op, env, home) && op.Receive?
    requires forall s, d | s in w.nodes && d in w.nodes && d != n :: PairSound(w, s, d, home)
    requires forall s <- w.nodes :: (s, n) in w.queues
    requires OwnViewsSound(w, n, Step(w.nodes[n], op, env), w.told, home)
    ensures Sound(NodeStep(w, n, op, env), channel, home)
  {
    AnswersKept(w, n, op, env, home, Step(w.nodes[n], op, env));
    NodeStepSound(w, n, op, env, channel, home);
  }

  lemma PoppedPairs(w: World, w1: World, src: string, n: string, home: Homes)
    requires (src, n) in w.queues && w.queues[(src, n)] != [] && w1 == Popped(w, src, n)
    requires forall a, b | a in w.nodes && b in w.nodes :: (a, b) in w.queues && PairSound(w, a, b, home)
    ensures forall a, b | a in w1.nodes && b in w1.nodes && b != n :: (a, b) in w1.queues && PairSound(w1, a, b, home)
  {
    forall a, b | a in w1.nodes && b in w1.nodes && b != n ensures (a, b) in w1.queues && PairSound(w1, a, b, home) {
      assert (a, b) in w.queues && PairSound(w, a, b, home);
    }
  }

  lemma NextSound(w: World, a: Action, env: Env, channel: string, home: Homes)
    requires Sound(w, channel, home) && Enabled(w, a, env, home)
    ensures Sound(Next(w, a, env), channel, home)
  {
    match a
    case Open(n) => OpenSound(w, n, env, channel, home);
    case Leave(n) => LeaveSound(w, n, env, channel, home);
    case Local(n, op) => LocalSound(w, n, op, env, channel, home);
    case Deliver(src, n, endpoint, messageId, timestamp) =>
      BytesRead(w.queues[(src, n)][0], endpoint, messageId, timestamp, env.freshId);
      DeliverSound(w, src, n, Bytes(w.queues[(src, n)][0], endpoint, messageId, timestamp), env, channel, home);
  }

  // ---------- runs ----------

  type Steps = seq<(Action, Env)>

  /** The `i`-th step of a run leads from one world to the next. */
  ghost predicate Leads(run: seq<World>, steps: Steps, i: nat, home: Homes)
    requires i < |steps| && |run| == |steps| + 1
  {
    Enabled(run[i], steps[i].0, steps[i].1, home) && run[i + 1] == Next(run[i], steps[i].0, steps[i].1)
  }

  /** The worlds that some enabled steps go through, from the start with all channels closed. */
  ghost predicate IsRun(run: seq<World>, steps: Steps, ids: set<string>, channel: string, home: Homes) {
    && |run| == |steps| + 1 && run[0] == Initial(ids, channel)
    && (forall i {:trigger Leads(run, steps, i, home)} :: 0 <= i < |steps| ==> Leads(run, steps, i, home))
  }

  // ---------- a run goes on ----------

  ghost predicate Goes(v: World, step: (Action, Env), w: World, home: Homes) {
    Enabled(v, step.0, step.1, home) && w == Next(v, step.0, step.1)
  }

  lemma LeadsStill(run: seq<World>, before: Steps, j: nat, w: World, step: (Action, Env), longer: seq<World>,
                   all: Steps, home: Homes)
    requires j < |before| && |run| == |before| + 1 && Leads(run, before, j, home)
    requires longer == run + [w] && all == before + [step]
    ensures Leads(longer, all, j, home)
  {
    assert longer[j] == run[j] && longer[j + 1] == run[j + 1] && all[j] == before[j];
  }

  lemma LeadsLast(run: seq<World>, before: Steps, n: nat, w: World, step: (Action, Env), longer: seq<World>,
                  all: Steps, home: Homes)
    requires n == |before| && |run| == n + 1 && Goes(run[n], step, w, home)
    requires longer == run + [w] && all == before + [step]
    ensures Leads(longer, all, n, home)
  {
    assert longer[n] == run[n] && longer[n + 1] == w && all[n] == step;
  }

  ghost predicate AllLead(run: seq<World>, steps: Steps, home: Homes) {
    |run| == |steps| + 1 && forall i {:trigger Leads(run, steps, i, home)} :: 0 <= i < |steps| ==> Leads(run, steps, i, home)
  }

  lemma OneMoreLeads(run: seq<World>, before: Steps, n: nat, w: World, step: (Action, Env), longer: seq<World>,
                     all: Steps, home: Homes)
    requires n == |before| && AllLead(run, before, home) && Goes(run[n], step, w, home)
    requires longer == run + [w] && all == before + [step]
    ensures AllLead(longer, all, home)
  {
    LeadsLast(run, before, n, w, step, longer, all, home);
    forall i {:trigger Leads(longer, all, i, home)} | 0 <= i < |all| ensures Leads(longer, all, i, home) {
      if i < |before| { LeadsStill(run, before, i, w, step, longer, all, home); }
    }
  }

  lemma Prefix(steps: Steps, i: nat)
    requires i < |steps|
    ensures steps[..i + 1] == steps[..i] + [steps[i]]
  {}

  /** The start of a run, one step longer. */
  lemma Extended(run: seq<World>, steps: Steps, i: nat, w: World, home: Homes) returns (longer: seq<World>)
    requires i < |steps| && AllLead(run, steps[..i], home) && Goes(run[i], steps[i], w, home)
    ensures AllLead(longer, steps[..i + 1], home) && longer[0] == run[0] && longer[i + 1] == w
  {
    longer := run + [w];
    Prefix(steps, i);
    OneMoreLeads(run, steps[..i], i, w, steps[i], longer, steps[..i + 1], home);
  }

  lemma InitialSound(ids: set<string>, channel: string, home: Homes)
    requires "" !in ids
    ensures Sound(Initial(ids, channel), channel, home)
  {}

  lemma {:induction false} RunSound(run: seq<World>, steps: Steps, ids: set<string>, channel: string, home: Homes, k: nat)
    requires "" !in ids && IsRun(run, steps, ids, channel, home) && k < |run|
    ensures Sound(run[k], channel, home)
    decreases k
  {
    if k == 0 {
      FirstSound(run[0], ids, channel, home);
    } else {
      RunSound(run, steps, ids, channel, home, k - 1);
      MoreSound(run, steps, ids, channel, home, k - 1);
    }
  }

  lemma FirstSound(w: World, ids: set<string>, channel: string, home: Homes)
    requires "" !in ids && w == Initial(ids, channel)
    ensures Sound(w, channel, home)
  {
    InitialSound(ids, channel, home);
  }

  lemma MoreSound(run: seq<World>, steps: Steps, ids: set<string>, channel: string, home: Homes, k: nat)
    requires IsRun(run, steps, ids, channel, home) && k < |steps| && Sound(run[k], channel, home)
    ensures Sound(run[k + 1], channel, home)
  {
    assert Leads(run, steps, k, home);
    LeadSound(run[k], run[k + 1], steps[k].0, steps[k].1, channel, home);
  }

  lemma LeadSound(v: World, w: World, a: Action, env: Env, channel: string, home: Homes)
    requires Sound(v, channel, home) && Enabled(v, a, env, home) && w == Next(v, a, env)
    ensures Sound(w, channel, home)
  {
    NextSound(v, a, env, channel, home);
  }

  /** At every point of every run: when `s` has told `d` all, by opening after it or by an answer, or is closed, and
      nothing from `s` is waiting at `d`, the two agree on the assigns of all users of `s`; and `d` never holds
      anything that `s` does not. */
  lemma Converged(run: seq<World>, steps: Steps, ids: set<string>, channel: string, home: Homes, k: nat, s: string, d: string)
    requires "" !in ids && IsRun(run, steps, ids, channel, home) && k < |run|
    ensures
      var w := run[k];
      s in w.nodes && d in w.nodes && s != d && w.nodes[d].active && (s, d) in w.queues && w.queues[(s, d)] == [] ==>
        var held, own := ViewOf(w.nodes[d], s, home), ViewOf(w.nodes[s], s, home);
        Sub(held, own) && ((s, d) in w.told || !w.nodes[s].active ==> held == own)
  {
    RunSound(run, steps, ids, channel, home, k);
    var w := run[k];
    if s in w.nodes && d in w.nodes { DrainedPair(w, s, d, channel, home); }
  }

  lemma DrainedPair(w: World, s: string, d: string, channel: string, home: Homes)
    requires Sound(w, channel, home) && s in w.nodes && d in w.nodes
    ensures
      s != d && w.nodes[d].active && (s, d) in w.queues && w.queues[(s, d)] == [] ==>
        var held, own := ViewOf(w.nodes[d], s, home), ViewOf(w.nodes[s], s, home);
        Sub(held, own) && ((s, d) in w.told || !w.nodes[s].active ==> held == own)
  {
    assert PairSound(w, s, d, home) && NodeSound(w.nodes[s], s, channel, home);
    if !w.nodes[s].active { LeftEmpty(w.nodes[s], s, channel, home); }
  }

  /** Everything that `s` has to say has arrived at `d`. */
  predicate Arrived(w: World, s: string, d: string) {
    s != d ==> s in w.nodes && ((s, d) in w.told || !w.nodes[s].active) && (s, d) in w.queues && w.queues[(s, d)] == []
  }

  /** An open node at which everything has arrived. */
  predicate CaughtUp(w: World, d: string) {
    d in w.nodes && w.nodes[d].active && forall s <- w.nodes :: Arrived(w, s, d)
  }

  predicate SameAssigns(s: State, t: State, u: string) {
    (u in s.assigns <==> u in t.assigns) && (u in s.assigns ==> s.assigns[u] == t.assigns[u])
  }

  /** Two nodes that have caught up hold the same assigns for every user with a home in the cluster. */
  lemma CaughtUpNodesAgree(run: seq<World>, steps: Steps, ids: set<string>, channel: string, home: Homes, k: nat,
                           d: string, e: string, u: string)
    requires "" !in ids && IsRun(run, steps, ids, channel, home) && k < |run|
    requires CaughtUp(run[k], d) && CaughtUp(run[k], e) && home(u) in run[k].nodes
    ensures SameAssigns(run[k].nodes[d], run[k].nodes[e], u)
  {
    AgreesWithHome(run, steps, ids, channel, home, k, d, u);
    AgreesWithHome(run, steps, ids, channel, home, k, e, u);
  }

  /** It takes only what the home of a user has to say to agree with the home about that user. */
  lemma AgreesWithHome(run: seq<World>, steps: Steps, ids: set<string>, channel: string, home: Homes, k: nat,
                       d: string, u: string)
    requires "" !in ids && IsRun(run, steps, ids, channel, home) && k < |run|
    requires d in run[k].nodes && run[k].nodes[d].active && home(u) in run[k].nodes && Arrived(run[k], home(u), d)
    ensures SameAssigns(run[k].nodes[d], run[k].nodes[home(u)], u)
  {
    var w := run[k];
    if home(u) != d {
      Converged(run, steps, ids, channel, home, k, home(u), d);
      SameInViews(w.nodes[d], w.nodes[home(u)], home(u), u, home);
    }
  }

  lemma SameInViews(s: State, t: State, node: string, u: string, home: Homes)
    requires home(u) == node && ViewOf(s, node, home) == ViewOf(t, node, home)
    ensures SameAssigns(s, t, u)
  {
    var v, w := ViewOf(s, node, home), ViewOf(t, node, home);
    assert (u in v <==> u in s.assigns) && (u in w <==> u in t.assigns);
    if u in v { assert v[u] == w[u]; }
  }

  // ---------- answers do come ----------

  /** The request that an opened node sends. */
  function Request(n: string, channel: string, rid: string): Publication {
    Publication(StateRequestEvent(channel, rid, n).(nodeId := n), "state:request")
  }

  lemma RequestRead(n: string, channel: string, rid: string, endpoint: string, messageId: string, timestamp: int,
                    freshId: string)
    ensures var read := Decode(Bytes(Request(n, channel, rid), endpoint, messageId, timestamp), freshId);
            read.Some? && read.value.action == STATE_REQUEST && read.value.nodeId == n && read.value.channelName == channel
  {
    var p := Request(n, channel, rid);
    RequestType(n, channel, rid);
    WireLaws.CodecRoundTrip(p.ev, p.subtype, endpoint, messageId, timestamp, freshId);
  }

  lemma RequestType(n: string, channel: string, rid: string)
    ensures Classify(Request(n, channel, rid).ev, "state:request") == StateRequest
  {}

  /** Opening a channel puts one state request last in the queue to every other open node. */
  lemma OpeningAsksEveryone(w: World, n: string, env: Env, d: string, channel: string, home: Homes)
    requires Sound(w, channel, home) && n in w.nodes && d in w.nodes && d != n && w.nodes[d].active
    ensures (n, d) in w.queues && (n, d) in Opened(w, n, env).queues
    ensures Opened(w, n, env).queues[(n, d)] == w.queues[(n, d)] + [Request(n, channel, env.freshId)]
  {
    assert NodeSound(w.nodes[n], n, channel, home);
    assert (n, d) in w.queues;
    OpenQueueOf(w, n, env, n, d);
  }

  /** Handling that request is the answer that `Converged` asks for, and so is any later request of any node. */
  lemma RequestIsAnswered(w: World, n: string, d: string, rid: string, endpoint: string, messageId: string, timestamp: int,
                          env: Env, channel: string, home: Homes)
    requires Sound(w, channel, home) && Enabled(w, Deliver(n, d, endpoint, messageId, timestamp), env, home)
    requires n in w.nodes && w.nodes[n].active && w.queues[(n, d)][0] == Request(n, channel, rid)
    ensures (d, n) in Next(w, Deliver(n, d, endpoint, messageId, timestamp), env).told
  {
    RequestRead(n, channel, rid, endpoint, messageId, timestamp, env.freshId);
    assert NodeSound(w.nodes[d], d, channel, home);
    assert (d, n) in w.queues;
    var op := Receive(Bytes(w.queues[(n, d)][0], endpoint, messageId, timestamp));
    assert IsStateRequest(w.nodes[d], op, env);
  }

  /** Why updates must come from the home: one issued elsewhere reaches the home and changes it, but not the node
      that issued it. If the two agreed before, they agree after exactly if the update changed nothing. */
  lemma RemoteAssignLeavesIssuerBehind(s: State, h: State, id: string, key: string, value: Value, rid: string)
    requires s.distributed && id !in s.connections && id in s.assigns && id in h.assigns && s.assigns[id] == h.assigns[id]
    ensures
      var sent := UpdateAssignSends(s, id, key, value, rid);
      && |sent| == 1 && UpdateAssign(s, id, key, value).0 == s
      && var after := HandleAssigns(h, ReadAs(sent[0], ""));
         && id in after.assigns && after.assigns[id] == h.assigns[id][key := value]
         && (after.assigns[id] == s.assigns[id] <==> key in s.assigns[id] && s.assigns[id][key] == value)
  {
    var sent := UpdateAssignSends(s, id, key, value, rid);
    var read := ReadAs(sent[0], "");
    assert read.payload.GetStr("userId") == Some(id) && read.event == "assigns:update";
    assert read.payload.GetStr("key") == None && read.payload.GetObj("assigns") == Some(s.assigns[id][key := value]);
    assert h.assigns[id] + s.assigns[id][key := value] == h.assigns[id][key := value];
    if key in s.assigns[id] && s.assigns[id][key] == value { assert s.assigns[id][key := value] == s.assigns[id]; }
  }
}
