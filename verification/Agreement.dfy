/** Agreement of the nodes of a cluster when nothing is on its way, without a word about who has told whom. */
module Agreement {
  import opened Json
  import opened Wire
  import opened ChannelSpec
  import opened NodeSteps
  import opened Partition
  import opened Views
  import opened Convergence
  import Cluster

  predicate Asks(p: Publication) {
    ReadAs(p, "").action == STATE_REQUEST
  }

  predicate Waits(queue: seq<Publication>) {
    exists p <- queue :: Asks(p)
  }

  /** Between open nodes: `s` has told `d` all, or a request of `d` is still on its way to `s`. */
  predicate Owed(w: World, s: string, d: string)
    requires s in w.nodes && d in w.nodes && (d, s) in w.queues
  {
    w.nodes[s].active && w.nodes[d].active && s != d ==> (s, d) in w.told || Waits(w.queues[(d, s)])
  }

  /** The action is a sweep of `d` that drops `s`. */
  predicate DropsNode(w: World, a: Convergence.Action, env: Env, s: string, d: string) {
    a.Local? && a.op.Sweep? && a.node == d && d in w.nodes && s in StaleNodes(w.nodes[d].lastSeen, env.now, a.op.timeout)
  }

  // ---------- every action keeps it ----------

  lemma WaitsMore(queue: seq<Publication>, sent: seq<Publication>)
    requires Waits(queue) || Waits(sent)
    ensures Waits(queue + sent)
  {
    if Waits(queue) {
      var p :| p in queue && Asks(p);
      assert p in queue + sent;
    } else {
      var p :| p in sent && Asks(p);
      assert p in queue + sent;
    }
  }

  lemma RequestAsks(n: string, channel: string, rid: string)
    ensures Asks(Request(n, channel, rid)) && Waits([Request(n, channel, rid)])
  {
    RequestType(n, channel, rid);
    assert Request(n, channel, rid) in [Request(n, channel, rid)];
  }

  lemma OpenOwes(w: World, n: string, env: Env, s: string, d: string, channel: string, home: Homes)
    requires Sound(w, channel, home) && n in w.nodes && !w.nodes[n].active
    requires s in w.nodes && d in w.nodes && (d, s) in w.queues && (s, d) in w.queues && Owed(w, s, d)
    ensures (d, s) in Opened(w, n, env).queues && Owed(Opened(w, n, env), s, d)
  {
    OpenQueueOf(w, n, env, d, s);
    OpenQueueOf(w, n, env, s, d);
    if n == d && s != d && w.nodes[s].active {
      OpeningAsksEveryone(w, d, env, s, channel, home);
      RequestAsks(d, channel, env.freshId);
      WaitsMore(w.queues[(d, s)], [Request(d, channel, env.freshId)]);
    }
  }

  lemma NodeStepOwes(w: World, n: string, op: Op, env: Env, s: string, d: string)
    requires n in w.nodes && s in w.nodes && d in w.nodes && (d, s) in w.queues && Owed(w, s, d) && !op.Shut?
    requires !DropsNode(w, Local(n, op), env, s, d)
    ensures (d, s) in NodeStep(w, n, op, env).queues && Owed(NodeStep(w, n, op, env), s, d)
  {
    StepIdentity(w.nodes[n], op, env);
    if Waits(w.queues[(d, s)]) { WaitsMore(w.queues[(d, s)], Sends(w.nodes[n], op, env)); }
  }

  /** A request that is handled is an answer to everybody who is open. */
  lemma RequestTells(w: World, s: string, d: string, data: Value, env: Env, channel: string, home: Homes)
    requires Sound(w, channel, home) && Delivers(w, d, s, data, env) && Asks(w.queues[(d, s)][0])
    ensures IsStateRequest(w.nodes[s], Receive(data), env)
  {
    var p := w.queues[(d, s)][0];
    assert AllGood(w.queues[(d, s)], d, channel, home) && NodeSound(w.nodes[s], s, channel, home);
    assert Good(p, d, channel, home);
    Cluster.SamePayload(p.ev, Classify(p.ev, p.subtype), env.freshId);
    ReadTheSame(p, env.freshId, d, channel, home, map[]);
  }

  lemma PopOwes(w: World, src: string, n: string, s: string, d: string)
    requires (src, n) in w.queues && w.queues[(src, n)] != []
    requires s in w.nodes && d in w.nodes && (d, s) in w.queues && Owed(w, s, d)
    requires (src, n) == (d, s) ==> !Asks(w.queues[(d, s)][0])
    ensures Owed(Popped(w, src, n), s, d)
  {
    var queue := w.queues[(d, s)];
    if (src, n) == (d, s) && Waits(queue) {
      var p :| p in queue && Asks(p);
      assert p in queue[1..];
    }
  }

  lemma DeliverOwes(w: World, src: string, n: string, data: Value, env: Env, s: string, d: string, channel: string, home: Homes)
    requires Sound(w, channel, home) && Delivers(w, src, n, data, env)
    requires s in w.nodes && d in w.nodes && (d, s) in w.queues && (s, d) in w.queues && Owed(w, s, d)
    ensures var w' := NodeStep(Popped(w, src, n), n, Receive(data), env); (d, s) in w'.queues && Owed(w', s, d)
  {
    var w1 := Popped(w, src, n);
    if (src, n) == (d, s) && Asks(w.queues[(d, s)][0]) {
      RequestTells(w, s, d, data, env, channel, home);
      TellsEverybody(w1, s, Receive(data), env, d);
    } else {
      PopOwes(w, src, n, s, d);
      NodeStepOwes(w1, n, Receive(data), env, s, d);
    }
  }

  lemma TellsEverybody(w: World, s: string, op: Op, env: Env, d: string)
    requires s in w.nodes && d in w.nodes && (s, d) in w.queues && (d, s) in w.queues
    requires op.Receive? && IsStateRequest(w.nodes[s], op, env)
    ensures var w' := NodeStep(w, s, op, env); (d, s) in w'.queues && Owed(w', s, d)
  {
    StepIdentity(w.nodes[s], op, env);
  }

  lemma NextOwes(w: World, a: Convergence.Action, env: Env, s: string, d: string, channel: string, home: Homes)
    requires Sound(w, channel, home) && Enabled(w, a, env, home) && !DropsNode(w, a, env, s, d)
    requires s in w.nodes && d in w.nodes && (d, s) in w.queues && Owed(w, s, d)
    ensures var w' := Next(w, a, env); s in w'.nodes && d in w'.nodes && (d, s) in w'.queues && Owed(w', s, d)
  {
    assert AllGood(w.queues[(s, d)], s, channel, home);
    match a
    case Open(n) => OpenOwes(w, n, env, s, d, channel, home);
    case Leave(n) =>
    case Local(n, op) => NodeStepOwes(w, n, op, env, s, d);
    case Deliver(src, n, endpoint, messageId, timestamp) =>
      BytesRead(w.queues[(src, n)][0], endpoint, messageId, timestamp, env.freshId);
      DeliverOwes(w, src, n, Bytes(w.queues[(src, n)][0], endpoint, messageId, timestamp), env, s, d, channel, home);
  }

  // ---------- in every run ----------

  /** None of the first `k` steps is a sweep of `d` that drops `s`. */
  ghost predicate NeverDropped(run: seq<World>, steps: Steps, k: nat, s: string, d: string)
    requires k <= |steps| <= |run|
  {
    forall i | 0 <= i < k :: !DropsNode(run[i], steps[i].0, steps[i].1, s, d)
  }

  lemma FirstOwes(w: World, ids: set<string>, channel: string, s: string, d: string)
    requires s in ids && d in ids && w == Initial(ids, channel)
    ensures s in w.nodes && d in w.nodes && (d, s) in w.queues && Owed(w, s, d)
  {}

  lemma {:induction false} RunOwes(run: seq<World>, steps: Steps, ids: set<string>, channel: string, home: Homes, k: nat,
                                   s: string, d: string)
    requires "" !in ids && IsRun(run, steps, ids, channel, home) && k < |run| && s in ids && d in ids
    requires NeverDropped(run, steps, k, s, d)
    ensures var w := run[k]; s in w.nodes && d in w.nodes && (d, s) in w.queues && Owed(w, s, d)
    decreases k
  {
    if k == 0 {
      FirstOwes(run[0], ids, channel, s, d);
    } else {
      RunOwes(run, steps, ids, channel, home, k - 1, s, d);
      RunSound(run, steps, ids, channel, home, k - 1);
      MoreOwes(run, steps, ids, channel, home, k - 1, s, d);
    }
  }

  lemma MoreOwes(run: seq<World>, steps: Steps, ids: set<string>, channel: string, home: Homes, k: nat, s: string, d: string)
    requires IsRun(run, steps, ids, channel, home) && k < |steps| && Sound(run[k], channel, home)
    requires !DropsNode(run[k], steps[k].0, steps[k].1, s, d)
    requires s in run[k].nodes && d in run[k].nodes && (d, s) in run[k].queues && Owed(run[k], s, d)
    ensures var w := run[k + 1]; s in w.nodes && d in w.nodes && (d, s) in w.queues && Owed(w, s, d)
  {
    assert Leads(run, steps, k, home);
    LeadOwes(run[k], run[k + 1], steps[k].0, steps[k].1, s, d, channel, home);
  }

  lemma LeadOwes(v: World, w: World, a: Convergence.Action, env: Env, s: string, d: string, channel: string, home: Homes)
    requires Sound(v, channel, home) && Enabled(v, a, env, home) && w == Next(v, a, env) && !DropsNode(v, a, env, s, d)
    requires s in v.nodes && d in v.nodes && (d, s) in v.queues && Owed(v, s, d)
    ensures s in w.nodes && d in w.nodes && (d, s) in w.queues && Owed(w, s, d)
  {
    NextOwes(v, a, env, s, d, channel, home);
  }

  /** Nothing is on its way from `s` to `d`. */
  predicate Drained(w: World, s: string, d: string) {
    (s, d) in w.queues && w.queues[(s, d)] == []
  }

  /** In every run, for any two nodes: as long as no sweep of `d` has dropped `s`, and nothing is on its way between
      them, an open `d` holds for all users of `s` exactly the assigns that `s` holds. It does not matter which of
      them opened first, how often, or whether `s` is open. */
  lemma PairAgrees(run: seq<World>, steps: Steps, ids: set<string>, channel: string, home: Homes, k: nat, s: string, d: string)
    requires "" !in ids && IsRun(run, steps, ids, channel, home) && k < |run| && s in ids && d in ids && s != d
    requires NeverDropped(run, steps, k, s, d)
    requires d in run[k].nodes && run[k].nodes[d].active && Drained(run[k], s, d)
    requires s in run[k].nodes && (run[k].nodes[s].active ==> Drained(run[k], d, s))
    ensures ViewOf(run[k].nodes[d], s, home) == ViewOf(run[k].nodes[s], s, home)
  {
    RunOwes(run, steps, ids, channel, home, k, s, d);
    Converged(run, steps, ids, channel, home, k, s, d);
  }

  /** Nothing is on its way to any open node. */
  predicate AtRest(w: World) {
    forall s, d | s in w.nodes && d in w.nodes && s != d && w.nodes[d].active :: Drained(w, s, d)
  }

  /** No sweep of the run has dropped anybody. */
  ghost predicate Calm(run: seq<World>, steps: Steps, k: nat)
    requires k <= |steps| <= |run|
  {
    forall s, d :: NeverDropped(run, steps, k, s, d)
  }

  /** In every run without a node dropped as stale: whenever nothing is on its way, any two open nodes hold the same
      assigns for every user of the cluster, and they are those of the user's home. */
  lemma QuietClusterAgrees(run: seq<World>, steps: Steps, ids: set<string>, channel: string, home: Homes, k: nat, u: string)
    requires "" !in ids && IsRun(run, steps, ids, channel, home) && k < |run| && home(u) in ids
    requires Calm(run, steps, k) && AtRest(run[k])
    ensures home(u) in run[k].nodes
    ensures forall d <- run[k].nodes | run[k].nodes[d].active :: SameAssigns(run[k].nodes[d], run[k].nodes[home(u)], u)
    ensures forall d, e | d in run[k].nodes && e in run[k].nodes && run[k].nodes[d].active && run[k].nodes[e].active ::
              SameAssigns(run[k].nodes[d], run[k].nodes[e], u)
  {
    var w := run[k];
    RunNodes(run, steps, ids, channel, home, k);
    forall d <- w.nodes | w.nodes[d].active ensures SameAssigns(w.nodes[d], w.nodes[home(u)], u) {
      if d != home(u) {
        PairAgrees(run, steps, ids, channel, home, k, home(u), d);
        SameInViews(w.nodes[d], w.nodes[home(u)], home(u), u, home);
      }
    }
  }

  // ---------- a node dropped while it is open ----------

  /** After a sweep that drops an open node the two agree about its users if and only if it has none. */
  lemma DroppedAgreesWhenEmpty(w: World, s: string, d: string, timeout: int, env: Env, channel: string, home: Homes)
    requires Sound(w, channel, home) && s in w.nodes && d in w.nodes && s != d
    requires s in StaleNodes(w.nodes[d].lastSeen, env.now, timeout)
    ensures var t := Step(w.nodes[d], Sweep(timeout), env);
            && ViewOf(t, s, home) == map[]
            && (ViewOf(t, s, home) == ViewOf(w.nodes[s], s, home) <==> w.nodes[s].connections == {})
  {
    var t := Step(w.nodes[d], Sweep(timeout), env);
    assert NodeSound(w.nodes[s], s, channel, home) && NodeSound(w.nodes[d], d, channel, home);
    OwnUsers(w.nodes[s], home);
    SweepPartitioned(w.nodes[d], env.now, timeout, home);
    forall u | home(u) == s ensures u !in t.assigns { assert UserRight(t, u, home); }
    if w.nodes[s].connections != {} {
      var u :| u in w.nodes[s].connections;
      assert u in ViewOf(w.nodes[s], s, home);
    }
  }

  /** And it is not asked again: no step of a node but opening publishes a state request. */
  lemma OnlyOpeningAsks(s: State, op: Op, env: Env)
    ensures forall p <- Sends(s, op, env) :: p.ev.action != STATE_REQUEST
  {}

  lemma {:induction false} RunNodes(run: seq<World>, steps: Steps, ids: set<string>, channel: string, home: Homes, k: nat)
    requires IsRun(run, steps, ids, channel, home) && k < |run|
    ensures run[k].nodes.Keys == ids
    decreases k
  {
    if k == 0 {
      FirstNodes(run[0], ids, channel);
    } else {
      RunNodes(run, steps, ids, channel, home, k - 1);
      MoreNodes(run, steps, ids, channel, home, k - 1);
    }
  }

  lemma FirstNodes(w: World, ids: set<string>, channel: string)
    requires w == Initial(ids, channel)
    ensures w.nodes.Keys == ids
  {}

  lemma MoreNodes(run: seq<World>, steps: Steps, ids: set<string>, channel: string, home: Homes, k: nat)
    requires IsRun(run, steps, ids, channel, home) && k < |steps|
    ensures run[k + 1].nodes.Keys == run[k].nodes.Keys
  {
    assert Leads(run, steps, k, home);
    SameNodes(run[k], run[k + 1], steps[k].0, steps[k].1, home);
  }

  lemma SameNodes(v: World, w: World, a: Convergence.Action, env: Env, home: Homes)
    requires Enabled(v, a, env, home) && w == Next(v, a, env)
    ensures w.nodes.Keys == v.nodes.Keys
  {}
}
