/** How long a silent node keeps users at another node, and why a node that is heard from loses none. */
module Liveness {
  import opened Json
  import opened Wire
  import opened ChannelSpec
  import opened NodeSteps
  import opened Partition

  type Timeline = seq<(Op, Env)>

  function StateAfter(s: State, ops: Timeline): State
    decreases |ops|
  {
    if ops == [] then s else StateAfter(Step(s, ops[0].0, ops[0].1), ops[1..])
  }

  predicate TimeMovesOn(ops: Timeline) {
    forall i, j :: 0 <= i < j < |ops| ==> ops[i].1.now <= ops[j].1.now
  }

  /** The operation handles a message or a heartbeat of the node. */
  predicate HeardFrom(op: Op, env: Env, node: string) {
    (op.Receive? || op.Heartbeat?) && Decode(op.data, env.freshId).Some? && Decode(op.data, env.freshId).value.nodeId == node
  }

  predicate HeartbeatOf(op: Op, env: Env, node: string) {
    && op.Heartbeat? && Decode(op.data, env.freshId).Some?
    && Decode(op.data, env.freshId).value.nodeId == node && Decode(op.data, env.freshId).value.action == HEARTBEAT
  }

  // ---------- what one step does to the entries of one node ----------

  function SeenAt(s: State, node: string): Option<int> {
    if node in s.lastSeen then Some(s.lastSeen[node]) else None
  }

  predicate SameEntries(s: State, t: State, node: string) {
    && (node in t.nodeUsers <==> node in s.nodeUsers)
    && UsersAt(t.nodeUsers, node) == UsersAt(s.nodeUsers, node)
    && SeenAt(t, node) == SeenAt(s, node)
  }

  predicate RecordedIsSeen(s: State, node: string) {
    node in s.nodeUsers ==> node in s.lastSeen
  }

  /** What a handled message may do to the entries of `node`: nothing unless the message came from there; and
      it never moves the time at which a known node was seen. */
  predicate Handled(s: State, t: State, from: string, now: int, node: string) {
    && (from != node ==> SameEntries(s, t, node))
    && (SeenAt(t, node) == SeenAt(s, node) || (SeenAt(s, node) == None && SeenAt(t, node) == Some(now)))
    && (RecordedIsSeen(s, node) ==> RecordedIsSeen(t, node))
  }

  lemma {:induction false} LearnHandled(s: State, users: seq<Value>, from: string, now: int, node: string)
    ensures Handled(s, LearnUsers(s, users, from, now), from, now, node)
    decreases |users|
  {
    if users != [] {
      var id := users[0].GetStr("id");
      LearnHandled(if id.None? then s else LearnUser(s, users[0], id.value, from, now), users[1..], from, now, node);
    }
  }

  lemma CommandHandled(s: State, ev: Event, now: int, node: string)
    ensures Handled(s, HandleCommand(s, ev, now), ev.nodeId, now, node)
  {
    var who := ev.payload.GetStr("userId");
    if who.Some? {
      if ev.event == "user:evict" || ev.event == "user:remove" { RemovedHandled(s, who.value, ev.nodeId, now, node); }
    }
  }

  lemma RemovedHandled(s: State, id: string, from: string, now: int, node: string)
    ensures Handled(s, RemoveUser(s, id), from, now, node)
  {}

  lemma LeftHandled(s: State, ev: Event, now: int, node: string)
    ensures Handled(s, HandleUserLeft(s, ev), ev.nodeId, now, node)
  {}

  lemma JoinedHandled(s: State, ev: Event, now: int, node: string)
    ensures Handled(s, HandleUserJoined(s, ev, now), ev.nodeId, now, node)
  {}

  lemma ResponseHandled(s: State, ev: Event, now: int, node: string)
    ensures Handled(s, HandleStateResponse(s, ev, now), ev.nodeId, now, node)
  {
    var users := ev.payload.Get("users");
    if users.Some? && users.value.Arr? { LearnHandled(s, users.value.items, ev.nodeId, now, node); }
  }

  predicate SameNodes(s: State, t: State) {
    t.nodeUsers == s.nodeUsers && t.lastSeen == s.lastSeen
  }

  lemma OtherDispatch(s: State, ev: Event, env: Env)
    requires ev.action !in {USER_COMMAND, STATE_RESPONSE, USER_JOINED, USER_LEFT}
    ensures SameNodes(s, Dispatch(s, ev, env))
  {}

  lemma DispatchHandled(s: State, ev: Event, env: Env, node: string)
    ensures Handled(s, Dispatch(s, ev, env), ev.nodeId, env.now, node)
  {
    match ev.action
    case USER_COMMAND => CommandHandled(s, ev, env.now, node);
    case STATE_RESPONSE => ResponseHandled(s, ev, env.now, node);
    case USER_JOINED => JoinedHandled(s, ev, env.now, node);
    case USER_LEFT => LeftHandled(s, ev, env.now, node);
    case _ => OtherDispatch(s, ev, env);
  }

  /** The source of the message, or "" when the message is not one of the protocol. */
  function Source(data: Value, env: Env): string {
    match Decode(data, env.freshId)
    case None => ""
    case Some(ev) => ev.nodeId
  }

  lemma MessageHandled(s: State, data: Value, env: Env, node: string)
    requires node != ""
    ensures Handled(s, HandleMessage(s, data, env), Source(data, env), env.now, node)
  {
    var decoded := Decode(data, env.freshId);
    if decoded.Some? { DispatchHandled(s, decoded.value, env, node); }
  }

  lemma StepSame(s: State, op: Op, env: Env, node: string)
    requires node != "" && !HeardFrom(op, env, node) && !op.Shut? && !op.Sweep?
    ensures SameEntries(s, Step(s, op, env), node)
  {
    if op.Receive? {
      MessageHandled(s, op.data, env, node);
    } else if !op.Heartbeat? {
      LocalStep(s, op, env);
    }
  }

  lemma LocalStep(s: State, op: Op, env: Env)
    requires !op.Receive? && !op.Heartbeat? && !op.Sweep? && !op.Shut?
    ensures SameNodes(s, Step(s, op, env))
  {}

  lemma SweepOf(s: State, now: int, timeout: int, node: string)
    requires node in s.nodeUsers ==> node in s.lastSeen
    ensures
      var t := CleanupStaleNodes(s, now, timeout);
      if node in s.lastSeen && now - s.lastSeen[node] >= timeout
      then node !in t.nodeUsers && node !in t.lastSeen
      else SameEntries(s, t, node)
  {
    var t, stale := CleanupStaleNodes(s, now, timeout), StaleNodes(s.lastSeen, now, timeout);
    if node in s.lastSeen && now - s.lastSeen[node] >= timeout {
      assert node in stale && t.lastSeen == s.lastSeen - stale && t.nodeUsers == s.nodeUsers - stale;
    } else {
      assert node !in stale;
    }
  }

  // ---------- a silent node is gone after two timeouts ----------

  /** Nothing is heard from the node after time `t`. */
  predicate SilentAfter(ops: Timeline, node: string, t: int) {
    forall i :: 0 <= i < |ops| && HeardFrom(ops[i].0, ops[i].1, node) ==> ops[i].1.now <= t
  }

  /** The node was last seen at `t` or earlier, or is not known. */
  predicate SeenBy(s: State, node: string, t: int) {
    && (node in s.lastSeen ==> s.lastSeen[node] <= t)
    && (node in s.nodeUsers ==> node in s.lastSeen)
  }

  lemma StepSeenBy(s: State, op: Op, env: Env, node: string, t: int)
    requires node != "" && SeenBy(s, node, t) && (HeardFrom(op, env, node) ==> env.now <= t)
    ensures SeenBy(Step(s, op, env), node, t)
  {
    if op.Sweep? {
      SweepOf(s, env.now, op.timeout, node);
    } else if op.Receive? {
      MessageHandled(s, op.data, env, node);
    } else if !op.Heartbeat? && !op.Shut? {
      StepSame(s, op, env, node);
    }
  }

  lemma {:induction false} GoneStaysGone(s: State, ops: Timeline, node: string)
    requires node != "" && node !in s.nodeUsers && node !in s.lastSeen
    requires forall i :: 0 <= i < |ops| ==> !HeardFrom(ops[i].0, ops[i].1, node)
    ensures node !in StateAfter(s, ops).nodeUsers && node !in StateAfter(s, ops).lastSeen
    decreases |ops|
  {
    if ops != [] {
      var (op, env) := ops[0];
      assert !HeardFrom(op, env, node);
      if op.Sweep? {
        SweepOf(s, env.now, op.timeout, node);
      } else if !op.Shut? {
        StepSame(s, op, env, node);
      }
      GoneStaysGone(Step(s, op, env), ops[1..], node);
    }
  }

  /** A sweep a timeout or more after the node was last heard from removes it for good. */
  lemma {:induction false} SweptAway(s: State, ops: Timeline, node: string, t: int, timeout: int, j: nat)
    requires node != "" && timeout > 0 && SeenBy(s, node, t)
    requires TimeMovesOn(ops) && SilentAfter(ops, node, t)
    requires j < |ops| && ops[j].0 == Sweep(timeout) && ops[j].1.now >= t + timeout
    ensures node !in StateAfter(s, ops).nodeUsers && node !in StateAfter(s, ops).lastSeen
    decreases |ops|
  {
    var (op, env) := ops[0];
    StepSeenBy(s, op, env, node, t);
    var s1 := Step(s, op, env);
    if j == 0 {
      SweepOf(s, env.now, timeout, node);
      GoneStaysGone(s1, ops[1..], node);
    } else {
      assert forall i :: 0 <= i < |ops| - 1 ==> ops[1..][i] == ops[i + 1];
      SweptAway(s1, ops[1..], node, t, timeout, j - 1);
    }
  }

  predicate SweptFrom(ops: Timeline, timeout: int, x: int) {
    exists j :: 0 <= j < |ops| && ops[j].0 == Sweep(timeout) && x <= ops[j].1.now <= x + timeout
  }

  /** Sweeps come at most one timeout apart, from time `start` to the end of the run. */
  ghost predicate SweptRegularly(ops: Timeline, timeout: int, start: int)
    requires ops != []
  {
    forall x :: start <= x && x + timeout <= ops[|ops| - 1].1.now ==> SweptFrom(ops, timeout, x)
  }

  /** Users are added at their home and only genuine messages arrive. */
  ghost predicate AllowedOps(ops: Timeline, nodeId: string, home: Homes) {
    forall i :: 0 <= i < |ops| ==> AllowedOp(ops[i].0, ops[i].1, nodeId, home)
  }

  predicate AllowedOp(op: Op, env: Env, nodeId: string, home: Homes) {
    && (op.Add? ==> home(op.id) == nodeId)
    && (op.Receive? && Decode(op.data, env.freshId).Some? ==> Genuine(Decode(op.data, env.freshId).value, home))
  }

  lemma {:induction false} TimelinePartitioned(s: State, ops: Timeline, home: Homes)
    requires Partitioned(s, home) && AllowedOps(ops, s.nodeId, home)
    ensures Partitioned(StateAfter(s, ops), home) && StateAfter(s, ops).nodeId == s.nodeId
    decreases |ops|
  {
    if ops != [] {
      assert AllowedOp(ops[0].0, ops[0].1, s.nodeId, home);
      StepPartitioned(s, ops[0].0, ops[0].1, home);
      StepIdentity(s, ops[0].0, ops[0].1);
      var rest := ops[1..];
      forall i | 0 <= i < |rest| ensures AllowedOp(rest[i].0, rest[i].1, s.nodeId, home) {
        assert AllowedOp(ops[i + 1].0, ops[i + 1].1, s.nodeId, home);
      }
      TimelinePartitioned(Step(s, ops[0].0, ops[0].1), ops[1..], home);
    }
  }

  /** A node that is silent since `t` has no user recorded and no assigns left at another node from two timeouts after
      `t` on. */
  lemma SilentNodeForgotten(s: State, ops: Timeline, node: string, t: int, timeout: int, start: int, home: Homes)
    requires node != "" && node != s.nodeId && timeout > 0 && ops != []
    requires Partitioned(s, home) && AllowedOps(ops, s.nodeId, home) && SeenBy(s, node, t)
    requires TimeMovesOn(ops) && SilentAfter(ops, node, t)
    requires SweptRegularly(ops, timeout, start) && start <= t + timeout
    requires ops[|ops| - 1].1.now >= t + 2 * timeout
    ensures
      var end := StateAfter(s, ops);
      node !in end.nodeUsers && forall u | home(u) == node :: u !in end.assigns
  {
    assert SweptFrom(ops, timeout, t + timeout);
    var j :| 0 <= j < |ops| && ops[j].0 == Sweep(timeout) && t + timeout <= ops[j].1.now;
    SweptAway(s, ops, node, t, timeout, j);
    TimelinePartitioned(s, ops, home);
    forall u | home(u) == node ensures u !in StateAfter(s, ops).assigns {
      assert UserRight(StateAfter(s, ops), u, home);
    }
  }

  /** Presence goes with the record of a user: what a sweep leaves of a stale node is the presence, if any, of users
      that were not recorded when it came. */
  lemma PresenceAfterSweep(s: State, now: int, timeout: int, node: string, u: string, home: Homes)
    requires Partitioned(s, home) && node != s.nodeId && home(u) == node && node in StaleNodes(s.lastSeen, now, timeout)
    ensures u in CleanupStaleNodes(s, now, timeout).presence <==> u in s.presence && u !in s.assigns
  {
    var stale := StaleNodes(s.lastSeen, now, timeout);
    assert UserRight(s, u, home);
    assert u in UsersOf(s.nodeUsers, stale) <==> u in s.assigns;
  }

  // ---------- a node that is heard from keeps its users ----------

  lemma {:induction false} StateAfterConcat(s: State, a: Timeline, b: Timeline)
    ensures StateAfter(s, a + b) == StateAfter(StateAfter(s, a), b)
    decreases |a|
  {
    if a == [] {
      assert a + b == b;
    } else {
      assert (a + b)[1..] == a[1..] + b;
      StateAfterConcat(Step(s, a[0].0, a[0].1), a[1..], b);
    }
  }

  predicate SeenSince(s: State, node: string, h: int) {
    node in s.lastSeen ==> s.lastSeen[node] >= h
  }

  lemma StepSeenSince(s: State, op: Op, env: Env, node: string, h: int)
    requires node != "" && SeenSince(s, node, h) && env.now >= h
    ensures SeenSince(Step(s, op, env), node, h)
  {
    if op.Receive? {
      MessageHandled(s, op.data, env, node);
    } else if !op.Heartbeat? && !op.Shut? && !op.Sweep? {
      LocalStep(s, op, env);
    }
  }

  lemma {:induction false} StaysSeenSince(s: State, ops: Timeline, node: string, h: int)
    requires node != "" && SeenSince(s, node, h)
    requires forall i :: 0 <= i < |ops| ==> ops[i].1.now >= h
    ensures SeenSince(StateAfter(s, ops), node, h)
    decreases |ops|
  {
    if ops != [] {
      StepSeenSince(s, ops[0].0, ops[0].1, node, h);
      StaysSeenSince(Step(s, ops[0].0, ops[0].1), ops[1..], node, h);
    }
  }

  /** A sweep never takes a user of a node whose heartbeat, at `j`, was handled less than a timeout before. */
  lemma HeardNodeKeepsUsers(s: State, ops: Timeline, j: nat, k: nat, node: string, timeout: int, home: Homes)
    requires node != "" && node != s.nodeId && TimeMovesOn(ops)
    requires Partitioned(s, home) && AllowedOps(ops, s.nodeId, home)
    requires j < k < |ops| && ops[k].0 == Sweep(timeout)
    requires HeartbeatOf(ops[j].0, ops[j].1, node) && ops[k].1.now - ops[j].1.now < timeout
    ensures
      var before, after := StateAfter(s, ops[..k]), StateAfter(s, ops[..k + 1]);
      && UsersAt(after.nodeUsers, node) == UsersAt(before.nodeUsers, node)
      && forall u | u in UsersAt(before.nodeUsers, node) ::
           u in before.assigns && u in after.assigns && after.assigns[u] == before.assigns[u]
  {
    SeenAfterBeat(s, ops, j, k, node);
    OneMore(s, ops, k);
    assert Partitioned(StateAfter(s, ops[..k]), home) by { TimelinePartitioned(s, ops[..k], home); }
    NodeIdStays(s, ops[..k]);
    SweepSpares(StateAfter(s, ops[..k]), ops[k].1.now, timeout, node, home);
  }

  /** After a heartbeat the node counts as seen then or later, until the next sweep and beyond. */
  lemma SeenAfterBeat(s: State, ops: Timeline, j: nat, k: nat, node: string)
    requires node != "" && node != s.nodeId && TimeMovesOn(ops)
    requires j < k < |ops| && HeartbeatOf(ops[j].0, ops[j].1, node)
    ensures SeenSince(StateAfter(s, ops[..k]), node, ops[j].1.now)
  {
    var between := ops[j + 1..k];
    BeatSeen(s, ops, j, node);
    StateAfterParts(s, ops, j + 1, k);
    LaterThan(ops, j, k, between);
    StaysSeenSince(StateAfter(s, ops[..j + 1]), between, node, ops[j].1.now);
  }

  lemma StateAfterParts(s: State, ops: Timeline, i: nat, k: nat)
    requires i <= k <= |ops|
    ensures StateAfter(s, ops[..k]) == StateAfter(StateAfter(s, ops[..i]), ops[i..k])
  {
    assert ops[..k] == ops[..i] + ops[i..k];
    StateAfterConcat(s, ops[..i], ops[i..k]);
  }

  lemma LaterThan(ops: Timeline, j: nat, k: nat, later: Timeline)
    requires TimeMovesOn(ops) && j < k <= |ops| && later == ops[j + 1..k]
    ensures forall i :: 0 <= i < |later| ==> later[i].1.now >= ops[j].1.now
  {
    forall i | 0 <= i < |later| ensures later[i].1.now >= ops[j].1.now {
      assert later[i] == ops[j + 1 + i];
    }
  }

  lemma OneMore(s: State, ops: Timeline, k: nat)
    requires k < |ops|
    ensures StateAfter(s, ops[..k + 1]) == Step(StateAfter(s, ops[..k]), ops[k].0, ops[k].1)
  {
    assert ops[..k + 1] == ops[..k] + [ops[k]];
    StateAfterConcat(s, ops[..k], [ops[k]]);
    assert [ops[k]][1..] == [];
  }

  lemma {:induction false} NodeIdStays(s: State, ops: Timeline)
    ensures StateAfter(s, ops).nodeId == s.nodeId
    decreases |ops|
  {
    if ops != [] {
      StepIdentity(s, ops[0].0, ops[0].1);
      NodeIdStays(Step(s, ops[0].0, ops[0].1), ops[1..]);
    }
  }

  lemma BeatSeen(s: State, ops: Timeline, j: nat, node: string)
    requires j < |ops| && node != s.nodeId && HeartbeatOf(ops[j].0, ops[j].1, node)
    ensures SeenSince(StateAfter(s, ops[..j + 1]), node, ops[j].1.now)
  {
    OneMore(s, ops, j);
    NodeIdStays(s, ops[..j]);
  }

  lemma SweepSpares(s: State, now: int, timeout: int, node: string, home: Homes)
    requires Partitioned(s, home) && node != s.nodeId && !(node in s.lastSeen && now - s.lastSeen[node] >= timeout)
    ensures
      var t := CleanupStaleNodes(s, now, timeout);
      && UsersAt(t.nodeUsers, node) == UsersAt(s.nodeUsers, node)
      && forall u | u in UsersAt(s.nodeUsers, node) :: u in s.assigns && u in t.assigns && t.assigns[u] == s.assigns[u]
  {
    assert NodeRight(s, node);
    SweepOf(s, now, timeout, node);
    forall u | u in UsersAt(s.nodeUsers, node)
      ensures u in s.assigns && u !in UsersOf(s.nodeUsers, StaleNodes(s.lastSeen, now, timeout))
    {
      assert UserRight(s, u, home);
      UserOfStale(s, StaleNodes(s.lastSeen, now, timeout), u, home);
    }
  }

  // ---------- whole runs ----------

  /** Less than a timeout before operation `k` a heartbeat of the node was handled. */
  predicate BeatBefore(ops: Timeline, node: string, timeout: int, k: nat)
    requires k < |ops|
  {
    exists j :: 0 <= j < k && HeartbeatOf(ops[j].0, ops[j].1, node) && ops[k].1.now - ops[j].1.now < timeout
  }

  /** From operation `from` on, heartbeats of the node are handled less than a timeout apart. */
  ghost predicate BeatsRegularly(ops: Timeline, node: string, timeout: int, from: nat) {
    forall k | from <= k < |ops| :: BeatBefore(ops, node, timeout, k)
  }

  /** The entries of the node, and the assigns of its users, are as before. */
  predicate KeepsNode(s: State, t: State, node: string) {
    && UsersAt(t.nodeUsers, node) == UsersAt(s.nodeUsers, node)
    && forall u | u in UsersAt(s.nodeUsers, node) :: u in s.assigns && u in t.assigns && t.assigns[u] == s.assigns[u]
  }

  /** As long as heartbeats of a node are handled less than a timeout apart, no sweep of the run takes one of its users,
      or their assigns. */
  lemma NoSweepTakesUsers(s: State, ops: Timeline, node: string, timeout: int, from: nat, k: nat, home: Homes)
    requires node != "" && node != s.nodeId && TimeMovesOn(ops)
    requires Partitioned(s, home) && AllowedOps(ops, s.nodeId, home)
    requires BeatsRegularly(ops, node, timeout, from) && from <= k < |ops| && ops[k].0.Sweep? && ops[k].0.timeout >= timeout
    ensures KeepsNode(StateAfter(s, ops[..k]), StateAfter(s, ops[..k + 1]), node)
  {
    assert BeatBefore(ops, node, timeout, k);
    var j :| 0 <= j < k && HeartbeatOf(ops[j].0, ops[j].1, node) && ops[k].1.now - ops[j].1.now < timeout;
    HeardNodeKeepsUsers(s, ops, j, k, node, ops[k].0.timeout, home);
  }

  /** Nothing but heartbeats comes from the node, the channel stays open, and sweeps use at least this timeout. */
  predicate OnlyBeats(op: Op, env: Env, node: string, timeout: int) {
    !op.Shut? && !(op.Receive? && HeardFrom(op, env, node)) && (op.Sweep? ==> op.timeout >= timeout)
  }

  lemma BeatKeeps(s: State, op: Op, env: Env, node: string, timeout: int)
    requires node != "" && OnlyBeats(op, env, node, timeout) && !op.Sweep?
    ensures UsersAt(Step(s, op, env).nodeUsers, node) == UsersAt(s.nodeUsers, node)
  {
    if !op.Heartbeat? { StepSame(s, op, env, node); }
  }

  /** So the users recorded for a node stay recorded as long as only heartbeats come from it, and these come regularly. */
  lemma {:induction false} BeatingNodeKeepsUsers(s: State, ops: Timeline, node: string, timeout: int, from: nat, k: nat,
                                                 home: Homes)
    requires node != "" && node != s.nodeId && TimeMovesOn(ops)
    requires Partitioned(s, home) && AllowedOps(ops, s.nodeId, home)
    requires BeatsRegularly(ops, node, timeout, from) && from <= k <= |ops|
    requires forall i | from <= i < k :: OnlyBeats(ops[i].0, ops[i].1, node, timeout)
    ensures UsersAt(StateAfter(s, ops[..k]).nodeUsers, node) == UsersAt(StateAfter(s, ops[..from]).nodeUsers, node)
    decreases k
  {
    if from < k {
      BeatingNodeKeepsUsers(s, ops, node, timeout, from, k - 1, home);
      var (op, env) := ops[k - 1];
      assert OnlyBeats(op, env, node, timeout);
      if op.Sweep? {
        NoSweepTakesUsers(s, ops, node, timeout, from, k - 1, home);
      } else {
        OneMore(s, ops, k - 1);
        BeatKeeps(StateAfter(s, ops[..k - 1]), op, env, node, timeout);
      }
    }
  }
}
