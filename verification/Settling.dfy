/** Every run can come to rest: delivering what is on its way, in any order, ends, and then the open nodes agree. */
module Settling {
  import opened Json
  import opened Wire
  import opened ChannelSpec
  import opened NodeSteps
  import opened Partition
  import opened Convergence
  import opened Agreement
  import Cluster

  // ---------- messages that are answered ----------

  /** A state request, or a command that is no response: handling it may publish something. */
  predicate Provokes(ev: Event) {
    ev.action == STATE_REQUEST || (ev.action == USER_COMMAND && ev.event != "user:get_response")
  }

  lemma QuietlyHandled(s: State, ev: Event, env: Env)
    requires !Provokes(ev)
    ensures DispatchSends(s, ev, env) == []
  {}

  predicate AllQuiet(sent: seq<Publication>) {
    forall p <- sent :: !Provokes(ReadAs(p, ""))
  }

  lemma UserLeaves(s: State, id: string, rid: string)
    ensures |RemoveUserSends(s, id, rid)| <= 2 && AllQuiet(RemoveUserSends(s, id, rid))
  {
    if id in s.presence { PresenceIsQuiet(s, id, rid); }
    LeaveIsQuiet(s, id, rid);
  }

  lemma PresenceIsQuiet(s: State, id: string, rid: string)
    ensures |UntrackPresenceSends(s, id, rid)| <= 1 && AllQuiet(UntrackPresenceSends(s, id, rid))
  {}

  lemma LeaveIsQuiet(s: State, id: string, rid: string)
    ensures |Publish(s, LeftEvent(s.name, rid, id), "user:left")| <= 1
    ensures AllQuiet(Publish(s, LeftEvent(s.name, rid, id), "user:left"))
  {}

  lemma StateIsQuiet(s: State, keys: seq<string>, rid: string)
    ensures |HandleStateRequestSends(s, keys, rid)| <= 1 && AllQuiet(HandleStateRequestSends(s, keys, rid))
  {}

  lemma CommandIsQuiet(s: State, ev: Event, rid: string)
    ensures |HandleCommandSends(s, ev, rid)| <= 2 && AllQuiet(HandleCommandSends(s, ev, rid))
  {
    var who := ev.payload.GetStr("userId");
    if who.Some? && who.value in s.connections {
      if ev.event == "user:evict" || ev.event == "user:remove" { UserLeaves(s, who.value, rid); }
    }
  }

  /** Handling a message publishes two messages at most, none of which provokes another, and nothing at all unless the
      message provokes it. */
  lemma HandledSends(s: State, ev: Event, env: Env)
    ensures var sent := DispatchSends(s, ev, env);
            |sent| <= 2 && AllQuiet(sent) && (!Provokes(ev) ==> sent == [])
  {
    if ev.action == USER_COMMAND { CommandIsQuiet(s, ev, env.freshId); }
    if ev.action == STATE_REQUEST { StateIsQuiet(s, env.keys, env.freshId); }
    if !Provokes(ev) { QuietlyHandled(s, ev, env); }
  }

  // ---------- what is on its way, weighed ----------

  /** Each message counts for itself and for all that handling it may publish to `n` nodes. */
  function Weight(p: Publication, n: nat): nat {
    if Provokes(ReadAs(p, "")) then 1 + 2 * n else 1
  }

  function QueueWeight(queue: seq<Publication>, n: nat): nat
    decreases |queue|
  {
    if queue == [] then 0 else Weight(queue[0], n) + QueueWeight(queue[1..], n)
  }

  lemma {:induction false} WeightOfSum(a: seq<Publication>, b: seq<Publication>, n: nat)
    ensures QueueWeight(a + b, n) == QueueWeight(a, n) + QueueWeight(b, n)
    decreases |a|
  {
    if a == [] {
      assert a + b == b;
    } else {
      assert (a + b)[1..] == a[1..] + b;
      WeightOfSum(a[1..], b, n);
    }
  }

  lemma {:induction false} WeightOfQuiet(sent: seq<Publication>, n: nat)
    requires AllQuiet(sent)
    ensures QueueWeight(sent, n) == |sent|
    decreases |sent|
  {
    if sent != [] {
      assert sent[0] in sent;
      WeightOfQuiet(sent[1..], n);
    }
  }

  type Queues = map<Pair, seq<Publication>>

  function At(queues: Queues, p: Pair, n: nat): nat {
    if p in queues then QueueWeight(queues[p], n) else 0
  }

  function Row(queues: Queues, src: string, ids: seq<string>, n: nat): nat {
    if ids == [] then 0 else At(queues, (src, ids[0]), n) + Row(queues, src, ids[1..], n)
  }

  function Total(queues: Queues, srcs: seq<string>, ids: seq<string>, n: nat): nat {
    if srcs == [] then 0 else Row(queues, srcs[0], ids, n) + Total(queues, srcs[1..], ids, n)
  }

  predicate NoHeavier(q: Queues, q': Queues, src: string, ids: seq<string>, n: nat, more: nat) {
    forall d <- ids :: At(q', (src, d), n) <= At(q, (src, d), n) + more
  }

  lemma NoHeavierRest(q: Queues, q': Queues, src: string, ids: seq<string>, n: nat, more: nat)
    requires ids != [] && NoHeavier(q, q', src, ids, n, more)
    ensures NoHeavier(q, q', src, ids[1..], n, more) && At(q', (src, ids[0]), n) <= At(q, (src, ids[0]), n) + more
  {
    assert ids[0] in ids && forall d <- ids[1..] :: d in ids;
  }

  lemma {:induction false} RowSame(q: Queues, q': Queues, src: string, ids: seq<string>, n: nat)
    requires NoHeavier(q, q', src, ids, n, 0)
    ensures Row(q', src, ids, n) <= Row(q, src, ids, n)
  {
    if ids != [] {
      NoHeavierRest(q, q', src, ids, n, 0);
      RowSame(q, q', src, ids[1..], n);
    }
  }

  lemma {:induction false} RowTwoMore(q: Queues, q': Queues, src: string, ids: seq<string>, n: nat)
    requires NoHeavier(q, q', src, ids, n, 2)
    ensures Row(q', src, ids, n) <= Row(q, src, ids, n) + 2 * |ids|
  {
    if ids != [] {
      NoHeavierRest(q, q', src, ids, n, 2);
      RowTwoMore(q, q', src, ids[1..], n);
    }
  }

  lemma {:induction false} RowLess(q: Queues, q': Queues, src: string, ids: seq<string>, d: string, n: nat, less: nat)
    requires NoHeavier(q, q', src, ids, n, 0) && d in ids && At(q', (src, d), n) + less <= At(q, (src, d), n)
    ensures Row(q', src, ids, n) + less <= Row(q, src, ids, n)
  {
    NoHeavierRest(q, q', src, ids, n, 0);
    if ids[0] == d { RowSame(q, q', src, ids[1..], n); } else { RowLess(q, q', src, ids[1..], d, n, less); }
  }

  predicate Distinct(ids: seq<string>) {
    forall i, j :: 0 <= i < j < |ids| ==> ids[i] != ids[j]
  }

  /** One row grows by `extra` at most, another shrinks by `less` at least, and no other grows. */
  predicate RowsMove(q: Queues, q': Queues, srcs: seq<string>, ids: seq<string>, n: nat, up: string, extra: nat, down: string,
                     less: nat)
  {
    forall a <- srcs ::
      if a == up then Row(q', a, ids, n) <= Row(q, a, ids, n) + extra
      else if a == down then Row(q', a, ids, n) + less <= Row(q, a, ids, n)
      else Row(q', a, ids, n) <= Row(q, a, ids, n)
  }

  lemma {:induction false} TotalMoves(q: Queues, q': Queues, srcs: seq<string>, ids: seq<string>, n: nat, up: string, extra: nat,
                                      down: string, less: nat)
    requires Distinct(srcs) && up != down && RowsMove(q, q', srcs, ids, n, up, extra, down, less)
    ensures Total(q', srcs, ids, n) + (if down in srcs then less else 0)
         <= Total(q, srcs, ids, n) + (if up in srcs then extra else 0)
    decreases |srcs|
  {
    if srcs != [] {
      assert srcs[0] in srcs && forall a <- srcs[1..] :: a in srcs;
      assert srcs[0] !in srcs[1..];
      TotalMoves(q, q', srcs[1..], ids, n, up, extra, down, less);
      assert forall x :: x in srcs <==> x == srcs[0] || x in srcs[1..];
    }
  }

  // ---------- a delivery makes it lighter ----------

  lemma Popping(w: World, src: string, m: string, n: nat)
    requires (src, m) in w.queues && w.queues[(src, m)] != []
    ensures var q := Popped(w, src, m).queues;
            && At(q, (src, m), n) + Weight(w.queues[(src, m)][0], n) == At(w.queues, (src, m), n)
            && forall p | p != (src, m) :: At(q, p, n) == At(w.queues, p, n)
  {}

  lemma Sending(w: World, m: string, sent: seq<Publication>, n: nat)
    requires AllQuiet(sent)
    ensures var q := Enqueued(w, m, sent);
            && (forall p: Pair | p.0 != m :: At(q, p, n) == At(w.queues, p, n))
            && (forall p: Pair | p.0 == m :: At(q, p, n) <= At(w.queues, p, n) + |sent|)
  {
    var q := Enqueued(w, m, sent);
    forall p: Pair | p.0 == m ensures At(q, p, n) <= At(w.queues, p, n) + |sent| {
      if p in w.queues {
        WeightOfSum(w.queues[p], sent, n);
        WeightOfQuiet(sent, n);
      }
    }
  }

  lemma ReadProvokes(p: Publication, freshId: string)
    ensures Provokes(ReadAs(p, freshId)) <==> Provokes(ReadAs(p, ""))
  {
    Cluster.SamePayload(p.ev, Classify(p.ev, p.subtype), freshId);
  }

  /** What handling the head of a queue publishes. */
  lemma ReplySends(w: World, src: string, m: string, data: Value, env: Env)
    requires Delivers(w, src, m, data, env)
    ensures var sent := Sends(w.nodes[m], Receive(data), env);
            && AllQuiet(sent) && |sent| <= 2 && (!Provokes(ReadAs(w.queues[(src, m)][0], "")) ==> sent == [])
  {
    var p := w.queues[(src, m)][0];
    ReadProvokes(p, env.freshId);
    MessageSends(w.nodes[m], data, ReadAs(p, env.freshId), env);
  }

  lemma SendsOfMessage(s: State, data: Value, ev: Event, env: Env)
    requires Decode(data, env.freshId) == Some(ev)
    ensures Sends(s, Receive(data), env) == if Concerns(s, ev) then DispatchSends(s, ev, env) else []
  {}

  lemma MessageSends(s: State, data: Value, ev: Event, env: Env)
    requires Decode(data, env.freshId) == Some(ev)
    ensures var sent := Sends(s, Receive(data), env); AllQuiet(sent) && |sent| <= 2 && (!Provokes(ev) ==> sent == [])
  {
    SendsOfMessage(s, data, ev, env);
    HandledSends(s, ev, env);
  }

  lemma RowsAfter(w: World, src: string, m: string, sent: seq<Publication>, q: Queues, a: string, ids: seq<string>, n: nat)
    requires (src, m) in w.queues && w.queues[(src, m)] != [] && src != m && m in ids && AllQuiet(sent) && |sent| <= 2
    requires q == Enqueued(Popped(w, src, m), m, sent)
    ensures a == src ==> Row(q, a, ids, n) + Weight(w.queues[(src, m)][0], n) <= Row(w.queues, a, ids, n)
    ensures a != src && a != m ==> Row(q, a, ids, n) <= Row(w.queues, a, ids, n)
    ensures a == m ==> Row(q, a, ids, n) <= Row(w.queues, a, ids, n) + (if sent == [] then 0 else 2 * |ids|)
  {
    Popping(w, src, m, n);
    Sending(Popped(w, src, m), m, sent, n);
    if a == src {
      RowLess(w.queues, q, a, ids, m, n, Weight(w.queues[(src, m)][0], n));
    } else if a != m || sent == [] {
      RowSame(w.queues, q, a, ids, n);
    } else {
      RowTwoMore(w.queues, q, a, ids, n);
    }
  }

  /** A list of all nodes, each once. */
  predicate Nodes(ids: seq<string>, w: World) {
    Distinct(ids) && forall n <- w.nodes :: n in ids
  }

  function Burden(w: World, ids: seq<string>): nat {
    Total(w.queues, ids, ids, |ids|)
  }

  /** Every delivery lowers the burden, whatever it leads to. */
  lemma DeliveryLightens(w: World, src: string, m: string, data: Value, env: Env, ids: seq<string>)
    requires Delivers(w, src, m, data, env) && Nodes(ids, w)
    ensures Burden(NodeStep(Popped(w, src, m), m, Receive(data), env), ids) < Burden(w, ids)
  {
    var sent := Sends(w.nodes[m], Receive(data), env);
    ReplySends(w, src, m, data, env);
    LighterBy(w, src, m, sent, Enqueued(Popped(w, src, m), m, sent), ids);
  }

  lemma LighterBy(w: World, src: string, m: string, sent: seq<Publication>, q: Queues, ids: seq<string>)
    requires (src, m) in w.queues && w.queues[(src, m)] != [] && src != m && src in ids && m in ids && Distinct(ids)
    requires AllQuiet(sent) && |sent| <= 2 && (!Provokes(ReadAs(w.queues[(src, m)][0], "")) ==> sent == [])
    requires q == Enqueued(Popped(w, src, m), m, sent)
    ensures Total(q, ids, ids, |ids|) < Total(w.queues, ids, ids, |ids|)
  {
    var n := |ids|;
    var weight, extra := Weight(w.queues[(src, m)][0], n), if sent == [] then 0 else 2 * n;
    forall a | a in ids
      ensures if a == m then Row(q, a, ids, n) <= Row(w.queues, a, ids, n) + extra
              else if a == src then Row(q, a, ids, n) + weight <= Row(w.queues, a, ids, n)
              else Row(q, a, ids, n) <= Row(w.queues, a, ids, n)
    {
      RowsAfter(w, src, m, sent, q, a, ids, n);
    }
    TotalMoves(w.queues, q, ids, ids, n, m, extra, src, weight);
  }

  // ---------- every run can come to rest ----------

  lemma Listed(ids: set<string>) returns (keys: seq<string>)
    ensures Enumerates(keys, ids) && Distinct(keys)
    decreases |ids|
  {
    if ids == {} {
      keys := [];
    } else {
      var x :| x in ids;
      var rest := Listed(ids - {x});
      keys := [x] + rest;
    }
  }

  lemma Waiting(w: World, channel: string, home: Homes) returns (src: string, m: string)
    requires Sound(w, channel, home) && !AtRest(w)
    ensures src in w.nodes && m in w.nodes && src != m && w.nodes[m].active && (src, m) in w.queues && w.queues[(src, m)] != []
  {
    src, m :| src in w.nodes && m in w.nodes && src != m && w.nodes[m].active && !Drained(w, src, m);
    assert AllGood(w.queues[(src, m)], src, channel, home);
  }

  /** One more delivery, as long as there is one to make. */
  lemma DeliverOne(w: World, ids: seq<string>, channel: string, home: Homes) returns (step: (Convergence.Action, Env), t: World)
    requires Sound(w, channel, home) && !AtRest(w) && Nodes(ids, w)
    ensures step.0.Deliver? && Goes(w, step, t, home) && Burden(t, ids) < Burden(w, ids)
    ensures t.nodes.Keys == w.nodes.Keys
  {
    var src, m := Waiting(w, channel, home);
    var keys := Listed(w.nodes[m].connections);
    var env := Env(keys, "", 0);
    step := (Deliver(src, m, "", "", 0), env);
    t := Next(w, step.0, step.1);
    BytesRead(w.queues[(src, m)][0], "", "", 0, "");
    DeliveryLightens(w, src, m, Bytes(w.queues[(src, m)][0], "", "", 0), env, ids);
  }

  /** The second run goes on where the first ends, with nothing but deliveries. */
  predicate GoesOn(run: seq<World>, steps: Steps, longer: seq<World>, all: Steps) {
    run <= longer && steps <= all && forall i | |steps| <= i < |all| :: all[i].0.Deliver?
  }

  lemma GoesOnFurther(run: seq<World>, steps: Steps, w: World, step: (Convergence.Action, Env), longer: seq<World>, all: Steps)
    requires step.0.Deliver? && GoesOn(run + [w], steps + [step], longer, all)
    ensures GoesOn(run, steps, longer, all)
  {
    assert run <= run + [w] && steps <= steps + [step];
    assert all[|steps|] == step;
  }

  lemma OneMoreStep(run: seq<World>, steps: Steps, ids: set<string>, channel: string, home: Homes, w: World,
                    step: (Convergence.Action, Env))
    requires IsRun(run, steps, ids, channel, home) && Goes(run[|steps|], step, w, home)
    ensures IsRun(run + [w], steps + [step], ids, channel, home)
  {
    LeadsOfRun(run, steps, ids, channel, home);
    OneMoreLeads(run, steps, |steps|, w, step, run + [w], steps + [step], home);
    RunOfLeads(run + [w], steps + [step], run[0], ids, channel, home);
  }

  lemma LeadsOfRun(run: seq<World>, steps: Steps, ids: set<string>, channel: string, home: Homes)
    requires IsRun(run, steps, ids, channel, home)
    ensures AllLead(run, steps, home)
  {}

  lemma RunOfLeads(run: seq<World>, steps: Steps, first: World, ids: set<string>, channel: string, home: Homes)
    requires AllLead(run, steps, home) && run[0] == first == Initial(ids, channel)
    ensures IsRun(run, steps, ids, channel, home)
  {}

  lemma AnyDeliveryLightens(w: World, a: Convergence.Action, env: Env, t: World, list: seq<string>, home: Homes)
    requires a.Deliver? && Enabled(w, a, env, home) && t == Next(w, a, env) && Nodes(list, w)
    ensures Burden(t, list) < Burden(w, list)
  {
    var p := w.queues[(a.src, a.node)][0];
    BytesRead(p, a.endpoint, a.messageId, a.timestamp, env.freshId);
    DeliveryLightens(w, a.src, a.node, Bytes(p, a.endpoint, a.messageId, a.timestamp), env, list);
  }

  lemma StepLightens(run: seq<World>, steps: Steps, ids: set<string>, channel: string, home: Homes, list: seq<string>, i: nat)
    requires IsRun(run, steps, ids, channel, home) && i < |steps| && steps[i].0.Deliver? && Nodes(list, run[i])
    ensures Burden(run[i + 1], list) < Burden(run[i], list) && run[i + 1].nodes.Keys == run[i].nodes.Keys
  {
    assert Leads(run, steps, i, home);
    AnyDeliveryLightens(run[i], steps[i].0, steps[i].1, run[i + 1], list, home);
    SameNodes(run[i], run[i + 1], steps[i].0, steps[i].1, home);
  }

  /** In whatever order deliveries are made, there are no more of them in a row than the burden at their start. */
  lemma {:induction false} DeliveriesEnd(run: seq<World>, steps: Steps, ids: set<string>, channel: string, home: Homes,
                                         list: seq<string>, k: nat, j: nat)
    requires IsRun(run, steps, ids, channel, home) && k <= j <= |steps| && Nodes(list, run[k])
    requires forall i | k <= i < j :: steps[i].0.Deliver?
    ensures j - k + Burden(run[j], list) <= Burden(run[k], list) && run[j].nodes.Keys == run[k].nodes.Keys
    decreases j
  {
    if k < j {
      DeliveriesEnd(run, steps, ids, channel, home, list, k, j - 1);
      StepLightens(run, steps, ids, channel, home, list, j - 1);
    }
  }

  /** Every run can be continued by deliveries alone to a world at rest. */
  lemma {:induction false} ComesToRest(run: seq<World>, steps: Steps, ids: set<string>, channel: string, home: Homes,
                                       list: seq<string>)
    returns (longer: seq<World>, all: Steps)
    requires "" !in ids && IsRun(run, steps, ids, channel, home) && Nodes(list, run[|steps|])
    ensures IsRun(longer, all, ids, channel, home) && GoesOn(run, steps, longer, all) && AtRest(longer[|all|])
    decreases Burden(run[|steps|], list)
  {
    var w := run[|steps|];
    if AtRest(w) {
      return run, steps;
    }
    RunSound(run, steps, ids, channel, home, |steps|);
    var step, t := DeliverOne(w, list, channel, home);
    OneMoreStep(run, steps, ids, channel, home, t, step);
    longer, all := ComesToRest(run + [t], steps + [step], ids, channel, home, list);
    GoesOnFurther(run, steps, t, step, longer, all);
  }

  lemma StillCalm(run: seq<World>, steps: Steps, longer: seq<World>, all: Steps)
    requires |run| == |steps| + 1 && |longer| == |all| + 1 && Calm(run, steps, |steps|) && GoesOn(run, steps, longer, all)
    ensures Calm(longer, all, |all|)
  {
    forall s, d ensures NeverDropped(longer, all, |all|, s, d) {
      assert NeverDropped(run, steps, |steps|, s, d);
      forall i | 0 <= i < |all| ensures !DropsNode(longer[i], all[i].0, all[i].1, s, d) {
        if i < |steps| { assert longer[i] == run[i] && all[i] == steps[i]; }
      }
    }
  }

  /** Eventual agreement: whatever has happened in a run without a node dropped as stale, once everything on its way has
      been delivered, which takes finitely many deliveries, all open nodes hold the same assigns for every user. */
  lemma EventuallyAgrees(run: seq<World>, steps: Steps, ids: set<string>, channel: string, home: Homes)
    returns (longer: seq<World>, all: Steps)
    requires "" !in ids && IsRun(run, steps, ids, channel, home) && Calm(run, steps, |steps|)
    ensures IsRun(longer, all, ids, channel, home) && GoesOn(run, steps, longer, all) && AtRest(longer[|all|])
    ensures var w := longer[|all|];
            forall d, e, u | d in w.nodes && e in w.nodes && w.nodes[d].active && w.nodes[e].active && home(u) in ids ::
              SameAssigns(w.nodes[d], w.nodes[e], u)
  {
    var list := Listed(ids);
    RunNodes(run, steps, ids, channel, home, |steps|);
    longer, all := ComesToRest(run, steps, ids, channel, home, list);
    StillCalm(run, steps, longer, all);
    forall d, e, u | d in longer[|all|].nodes && e in longer[|all|].nodes && longer[|all|].nodes[d].active
                     && longer[|all|].nodes[e].active && home(u) in ids
      ensures SameAssigns(longer[|all|].nodes[d], longer[|all|].nodes[e], u)
    {
      QuietClusterAgrees(longer, all, ids, channel, home, |all|, u);
    }
  }
}
