/** Users that move between nodes, or are at two nodes at once: which steps of a node then break its tables, told
    from the state before the step. */
module Moves {
  import opened Json
  import opened Wire
  import opened ChannelSpec
  import opened NodeSteps
  import opened Partition
  import Cluster
  import WireLaws

  predicate Recorded(s: State, u: string) {
    exists n :: n in s.nodeUsers && u in s.nodeUsers[n]
  }

  predicate RecordedOutside(s: State, u: string, nodes: set<string>) {
    exists n :: n in s.nodeUsers && n !in nodes && u in s.nodeUsers[n]
  }

  /** The ids with assigns are those connected here or recorded under some node. */
  ghost predicate TablesAgree(s: State) {
    forall u :: UserAgrees(s, u)
  }

  predicate UserAgrees(s: State, u: string) {
    u in s.assigns <==> u in s.connections || Recorded(s, u)
  }

  /** No id is in two places: connected and recorded, or recorded under two nodes. */
  ghost predicate OnePlaceEach(s: State) {
    forall u :: PlacedOnce(s, u)
  }

  predicate PlacedOnce(s: State, u: string) {
    && (u in s.connections ==> !Recorded(s, u))
    && (forall m, n | m in s.nodeUsers && n in s.nodeUsers && u in s.nodeUsers[m] && u in s.nodeUsers[n] :: m == n)
  }

  /** Together with the node table being in order, this is what `Cluster.ReplicaPartition` promises. */
  lemma PartitionIsBoth(s: State)
    ensures Cluster.DataFollowsUsers(s)
       <==> TablesAgree(s) && OnePlaceEach(s) && forall n <- s.nodeUsers :: s.nodeUsers[n] != {} && n in s.lastSeen
  {
    var remote := UsersOf(s.nodeUsers, s.nodeUsers.Keys);
    forall u ensures u in remote <==> Recorded(s, u) {}
    if Cluster.DataFollowsUsers(s) {
      forall u ensures UserAgrees(s, u) && PlacedOnce(s, u) {
        assert u in s.assigns.Keys <==> u in s.connections + remote;
      }
    }
    if TablesAgree(s) && OnePlaceEach(s) {
      forall u ensures u in s.assigns.Keys <==> u in s.connections + remote { assert UserAgrees(s, u); }
      forall u ensures u !in s.connections || u !in remote { assert PlacedOnce(s, u); }
      forall m, n | m in s.nodeUsers && n in s.nodeUsers && m != n ensures s.nodeUsers[m] !! s.nodeUsers[n] {
        forall u ensures u !in s.nodeUsers[m] || u !in s.nodeUsers[n] { assert PlacedOnce(s, u); }
      }
    }
  }

  // ---------- what a step does to the tables ----------

  /** The ids learned from a node, one forgotten because a node says so, a user added or removed here, nodes dropped
      with all their users, everything gone, or nothing of all that. */
  datatype Change =
    | Same
    | Learns(ids: set<string>, node: string)
    | Forgets(id: string, node: string)
    | Adds(id: string)
    | Removes(id: string)
    | Drops(nodes: set<string>)
    | Clears

  /** The ids that a list of users names and that are not connected here. */
  function Named(users: seq<Value>, connected: set<string>): set<string> {
    set i | 0 <= i < |users| && users[i].GetStr("id").Some? && users[i].GetStr("id").value !in connected
      :: users[i].GetStr("id").value
  }

  function ChangeOfEvent(s: State, ev: Event): Change {
    var who := ev.payload.GetStr("userId");
    var users := ev.payload.Get("users");
    if ev.action == STATE_RESPONSE then
      if users.Some? && users.value.Arr? then Learns(Named(users.value.items, s.connections), ev.nodeId) else Same
    else if who.None? then Same
    else if ev.action == USER_COMMAND && (ev.event == "user:evict" || ev.event == "user:remove") then
      if who.value in s.connections then Removes(who.value) else Same
    else if who.value in s.connections then Same
    else if ev.action == USER_JOINED || (ev.action == USER_COMMAND && ev.event == "user:get_response") then
      Learns({who.value}, ev.nodeId)
    else if ev.action == USER_LEFT then Forgets(who.value, ev.nodeId)
    else Same
  }

  function ChangeOf(s: State, op: Op, env: Env): Change {
    match op
    case Add(id, _) => if s.active && id !in s.connections then Adds(id) else Same
    case Remove(id) => if id in s.connections then Removes(id) else Same
    case Evict(id, _) => if id in s.connections then Removes(id) else Same
    case SetAssign(id, _, _) => if id in s.connections then Adds(id) else Same
    case Receive(data) =>
      var ev := Decode(data, env.freshId);
      if ev.Some? && Concerns(s, ev.value) then ChangeOfEvent(s, ev.value) else Same
    case Sweep(timeout) => Drops(StaleNodes(s.lastSeen, env.now, timeout))
    case Shut => Clears
    case _ => Same
  }

  predicate RecordedAt(s: State, u: string, n: string) {
    n in s.nodeUsers && u in s.nodeUsers[n]
  }

  /** The tables of `t` are those of `s` after the change. */
  ghost predicate Changed(s: State, t: State, c: Change) {
    && (forall u :: u in t.connections <==> ConnectedAfter(s, c, u))
    && (forall u :: u in t.assigns <==> AssignedAfter(s, c, u))
    && (forall u, n :: RecordedAt(t, u, n) <==> RecordedAfter(s, c, u, n))
  }

  predicate ConnectedAfter(s: State, c: Change, u: string) {
    match c
    case Adds(id) => u in s.connections || u == id
    case Removes(id) => u in s.connections && u != id
    case Clears => false
    case _ => u in s.connections
  }

  predicate AssignedAfter(s: State, c: Change, u: string) {
    match c
    case Same => u in s.assigns
    case Learns(ids, _) => u in s.assigns || u in ids
    case Forgets(id, _) => u in s.assigns && u != id
    case Adds(id) => u in s.assigns || u == id
    case Removes(id) => u in s.assigns && u != id
    case Drops(nodes) => u in s.assigns && u !in UsersOf(s.nodeUsers, nodes)
    case Clears => false
  }

  predicate RecordedAfter(s: State, c: Change, u: string, n: string) {
    match c
    case Learns(ids, node) => RecordedAt(s, u, n) || (n == node && u in ids)
    case Forgets(id, node) => RecordedAt(s, u, n) && !(u == id && n == node)
    case Drops(nodes) => RecordedAt(s, u, n) && n !in nodes
    case Clears => false
    case _ => RecordedAt(s, u, n)
  }

  /** What every published message has: a source, and the assigns of a user it tells about on request. */
  predicate Complete(ev: Event) {
    ev.nodeId != "" && (ev.action == USER_COMMAND && ev.event == "user:get_response" ==> ev.payload.GetObj("assigns").Some?)
  }

  predicate ReadsComplete(op: Op, env: Env) {
    op.Receive? && Decode(op.data, env.freshId).Some? ==> Complete(Decode(op.data, env.freshId).value)
  }

  lemma PublishedIsComplete(p: Publication, endpoint: string, messageId: string, timestamp: int, env: Env)
    requires Complete(ReadAs(p, ""))
    ensures ReadsComplete(Receive(Bytes(p, endpoint, messageId, timestamp)), env)
  {
    WireLaws.CodecRoundTrip(p.ev, p.subtype, endpoint, messageId, timestamp, env.freshId);
    Cluster.SamePayload(p.ev, Classify(p.ev, p.subtype), env.freshId);
  }

  lemma RemoveComplete(s: State, id: string, rid: string)
    requires s.nodeId != ""
    ensures forall p <- RemoveUserSends(s, id, rid) :: Complete(ReadAs(p, ""))
  {
    var home: Homes := (u: string) => s.nodeId;
    UntrackGenuine(s, id, rid, home);
    LeftGenuine(s, id, rid, home);
  }

  lemma AnswersComplete(s: State, ev: Event, env: Env)
    requires s.nodeId != ""
    ensures forall p <- DispatchSends(s, ev, env) :: Complete(ReadAs(p, ""))
  {
    var home: Homes := (u: string) => s.nodeId;
    AnswerGenuine(s, env.keys, env.freshId, home);
    var who := ev.payload.GetStr("userId");
    if who.Some? {
      RemoveComplete(s, who.value, env.freshId);
      FoundGenuine(s, who.value, Lookup(s.assigns, who.value), Lookup(s.presence, who.value),
                   ev.payload.GetStr("requestId").GetOr(ev.requestId), home);
    }
  }

  /** Whatever a node publishes is complete when read. */
  lemma SendsComplete(s: State, op: Op, env: Env)
    requires s.nodeId != ""
    ensures forall p <- Sends(s, op, env) :: Complete(ReadAs(p, ""))
  {
    var home: Homes := (u: string) => s.nodeId;
    match op
    case Add(id, assigns) => JoinedGenuine(s, id, assigns, env.freshId, home);
    case Remove(id) => RemoveComplete(s, id, env.freshId);
    case Evict(id, reason) =>
      RemoveComplete(s, id, env.freshId);
      NeutralGenuine(s, CommandEvent(s.name, env.freshId, "user:evict", id, reason), "user:evict", home);
    case Receive(data) =>
      if Decode(data, env.freshId).Some? { AnswersComplete(s, Decode(data, env.freshId).value, env); }
    case _ => QuietGenuine(s, op, env, home);
  }

  lemma LearnChanges(s: State, user: Value, id: string, node: string, now: int)
    requires id !in s.connections && node != ""
    ensures Changed(s, LearnUser(s, user, id, node, now), Learns({id}, node))
  {}

  lemma LearnMore(s: State, t: State, v: State, a: set<string>, b: set<string>, node: string)
    requires Changed(s, t, Learns(a, node)) && Changed(t, v, Learns(b, node))
    ensures Changed(s, v, Learns(a + b, node))
  {}

  lemma NamedStep(users: seq<Value>, connected: set<string>)
    requires users != []
    ensures var id := users[0].GetStr("id");
            Named(users, connected)
            == (if id.Some? && id.value !in connected then {id.value} else {}) + Named(users[1..], connected)
  {
    forall i | 1 <= i < |users| ensures users[i] == users[1..][i - 1] {}
  }

  lemma {:induction false} LearnAllChanges(s: State, users: seq<Value>, node: string, now: int)
    requires node != ""
    ensures Changed(s, LearnUsers(s, users, node, now), Learns(Named(users, s.connections), node))
    decreases |users|
  {
    if users != [] {
      var id := users[0].GetStr("id");
      var first := if id.Some? && id.value !in s.connections then {id.value} else {};
      var s1 := if id.None? then s else LearnUser(s, users[0], id.value, node, now);
      if first != {} { LearnChanges(s, users[0], id.value, node, now); }
      LearnAllChanges(s1, users[1..], node, now);
      LearnMore(s, s1, LearnUsers(s1, users[1..], node, now), first, Named(users[1..], s.connections), node);
      NamedStep(users, s.connections);
    }
  }

  lemma LeaveChanges(s: State, ev: Event, id: string)
    requires ev.nodeId != "" && ev.payload.GetStr("userId") == Some(id) && id !in s.connections
    ensures Changed(s, HandleUserLeft(s, ev), Forgets(id, ev.nodeId))
  {
    var t := HandleUserLeft(s, ev);
    forall u, n ensures RecordedAt(t, u, n) <==> RecordedAfter(s, Forgets(id, ev.nodeId), u, n) {
      if ev.nodeId in s.nodeUsers && n == ev.nodeId { assert u in s.nodeUsers[n] - {id} <==> u in s.nodeUsers[n] && u != id; }
    }
  }

  lemma FoundChanges(s: State, ev: Event, id: string, now: int)
    requires Complete(ev) && ev.action == USER_COMMAND && ev.event == "user:get_response"
    requires ev.payload.GetStr("userId") == Some(id) && id !in s.connections
    ensures Changed(s, HandleCommand(s, ev, now), Learns({id}, ev.nodeId))
  {}

  lemma RemoveChanges(s: State, id: string)
    requires id in s.connections
    ensures Changed(s, RemoveUser(s, id), Removes(id))
  {}

  lemma AddChanges(s: State, id: string, assigns: Object)
    requires s.active && id !in s.connections
    ensures Changed(s, AddUser(s, id, assigns).0, Adds(id))
  {}

  lemma SweepChanges(s: State, now: int, timeout: int)
    ensures Changed(s, CleanupStaleNodes(s, now, timeout), Drops(StaleNodes(s.lastSeen, now, timeout)))
  {}

  lemma CommandChanges(s: State, ev: Event, now: int)
    requires Complete(ev) && ev.action == USER_COMMAND
    ensures Changed(s, HandleCommand(s, ev, now), ChangeOfEvent(s, ev))
  {
    var who := ev.payload.GetStr("userId");
    if who.Some? {
      if ev.event == "user:evict" || ev.event == "user:remove" {
        if who.value in s.connections { RemoveChanges(s, who.value); }
      } else if ev.event == "user:get_response" && who.value !in s.connections {
        FoundChanges(s, ev, who.value, now);
      }
    }
  }

  lemma EventChanges(s: State, ev: Event, env: Env)
    requires Complete(ev)
    ensures Changed(s, Dispatch(s, ev, env), ChangeOfEvent(s, ev))
  {
    var who := ev.payload.GetStr("userId");
    if ev.action == USER_COMMAND {
      CommandChanges(s, ev, env.now);
    } else if ev.action == STATE_RESPONSE {
      var users := ev.payload.Get("users");
      if users.Some? && users.value.Arr? { LearnAllChanges(s, users.value.items, ev.nodeId, env.now); }
    } else if ev.action == USER_JOINED {
      if who.Some? && who.value !in s.connections { LearnChanges(s, ev.payload, who.value, ev.nodeId, env.now); }
    } else if ev.action == USER_LEFT {
      if who.Some? && who.value !in s.connections { LeaveChanges(s, ev, who.value); }
    } else {
      OtherSameTables(s, ev, env);
    }
  }

  /** Every step changes the tables as its `Change` says. */
  lemma StepChanges(s: State, op: Op, env: Env)
    requires ReadsComplete(op, env)
    ensures Changed(s, Step(s, op, env), ChangeOf(s, op, env))
  {
    if op.Receive? {
      ReceiveChanges(s, op.data, env);
    } else if op.Sweep? {
      SweepChanges(s, env.now, op.timeout);
    } else {
      LocalChanges(s, op, env);
    }
  }

  lemma ReceiveChanges(s: State, data: Value, env: Env)
    requires ReadsComplete(Receive(data), env)
    ensures Changed(s, HandleMessage(s, data, env), ChangeOf(s, Receive(data), env))
  {
    var ev := Decode(data, env.freshId);
    if ev.Some? && Concerns(s, ev.value) { EventChanges(s, ev.value, env); }
  }

  lemma LocalChanges(s: State, op: Op, env: Env)
    requires !op.Receive? && !op.Sweep?
    ensures Changed(s, Step(s, op, env), ChangeOf(s, op, env))
  {
    if Quiet(op) {
      QuietSameTables(s, op, env);
    } else {
      match op
      case Add(id, assigns) => if s.active && id !in s.connections { AddChanges(s, id, assigns); }
      case Remove(id) => if id in s.connections { RemoveChanges(s, id); }
      case Evict(id, reason) => if id in s.connections { RemoveChanges(s, id); }
      case SetAssign(id, key, value) => if id in s.connections { AssignChanges(s, id, key, value); }
      case _ =>
    }
  }

  lemma AssignChanges(s: State, id: string, key: string, value: Value)
    requires id in s.connections
    ensures Changed(s, UpdateAssign(s, id, key, value).0, Adds(id))
  {}

  // ---------- which changes break the tables ----------

  /** The change leaves ids with assigns and ids connected or recorded the same sets: what goes is nowhere else. */
  predicate KeepsTables(s: State, c: Change) {
    match c
    case Forgets(id, node) => !RecordedOutside(s, id, {node})
    case Removes(id) => !Recorded(s, id)
    case Drops(nodes) =>
      forall u <- UsersOf(s.nodeUsers, nodes) :: u !in s.connections && !RecordedOutside(s, u, nodes)
    case _ => true
  }

  /** The change puts no id in a second place. */
  predicate KeepsPlaces(s: State, c: Change) {
    match c
    case Learns(ids, node) => forall id <- ids :: !RecordedOutside(s, id, {node})
    case Adds(id) => !Recorded(s, id)
    case _ => true
  }

  lemma RecordedChange(s: State, t: State, c: Change, u: string)
    requires Changed(s, t, c)
    ensures Recorded(t, u) <==>
              match c
              case Learns(ids, node) => Recorded(s, u) || u in ids
              case Forgets(id, node) => if u == id then RecordedOutside(s, u, {node}) else Recorded(s, u)
              case Drops(nodes) => RecordedOutside(s, u, nodes)
              case Clears => false
              case _ => Recorded(s, u)
  {
    if Recorded(t, u) {
      var n :| n in t.nodeUsers && u in t.nodeUsers[n];
      assert RecordedAt(t, u, n);
    }
    if Recorded(s, u) {
      var n :| n in s.nodeUsers && u in s.nodeUsers[n];
      assert RecordedAt(t, u, n) <==> RecordedAfter(s, c, u, n);
    }
    match c
    case Learns(ids, node) => if u in ids { assert RecordedAt(t, u, node); }
    case Forgets(id, node) =>
      if RecordedOutside(s, u, {node}) {
        var n :| n in s.nodeUsers && n != node && u in s.nodeUsers[n];
        assert RecordedAt(t, u, n);
      }
    case Drops(nodes) =>
      if RecordedOutside(s, u, nodes) {
        var n :| n in s.nodeUsers && n !in nodes && u in s.nodeUsers[n];
        assert RecordedAt(t, u, n);
      }
    case _ =>
  }

  /** One user, after the change. */
  predicate StillAgrees(s: State, c: Change, u: string) {
    match c
    case Forgets(id, node) => u == id ==> u !in s.connections ==> !RecordedOutside(s, u, {node})
    case Removes(id) => u == id ==> !Recorded(s, u)
    case Drops(nodes) => u in UsersOf(s.nodeUsers, nodes) ==> u !in s.connections && !RecordedOutside(s, u, nodes)
    case _ => true
  }

  lemma UserAfter(s: State, t: State, c: Change, u: string)
    requires UserAgrees(s, u) && Changed(s, t, c)
    requires c.Forgets? ==> c.id !in s.connections
    requires c.Learns? ==> c.ids !! s.connections
    ensures UserAgrees(t, u) <==> StillAgrees(s, c, u)
  {
    RecordedChange(s, t, c, u);
    assert u in t.connections <==> ConnectedAfter(s, c, u);
    assert u in t.assigns <==> AssignedAfter(s, c, u);
    if c.Drops? { DroppedUser(s, c.nodes, u); }
  }

  lemma DroppedUser(s: State, nodes: set<string>, u: string)
    ensures Recorded(s, u) <==> u in UsersOf(s.nodeUsers, nodes) || RecordedOutside(s, u, nodes)
  {
    if Recorded(s, u) {
      var n :| n in s.nodeUsers && u in s.nodeUsers[n];
      if n in nodes { assert u in UsersOf(s.nodeUsers, nodes); } else { assert RecordedOutside(s, u, nodes); }
    }
  }

  /** When a change keeps the tables in agreement: exactly when what goes from one place was in no other. */
  lemma TablesAfter(s: State, t: State, c: Change)
    requires TablesAgree(s) && Changed(s, t, c)
    requires c.Forgets? ==> c.id !in s.connections
    requires c.Learns? ==> c.ids !! s.connections
    ensures TablesAgree(t) <==> KeepsTables(s, c)
  {
    forall u ensures UserAgrees(t, u) <==> StillAgrees(s, c, u) {
      assert UserAgrees(s, u);
      UserAfter(s, t, c, u);
    }
    if TablesAgree(t) {
      match c
      case Forgets(id, node) => assert UserAgrees(t, id) && StillAgrees(s, c, id);
      case Removes(id) => assert UserAgrees(t, id) && StillAgrees(s, c, id);
      case Drops(nodes) =>
        forall u | u in UsersOf(s.nodeUsers, nodes) ensures u !in s.connections && !RecordedOutside(s, u, nodes) {
          assert UserAgrees(t, u) && StillAgrees(s, c, u);
        }
      case _ =>
    }
    if KeepsTables(s, c) {
      forall u ensures UserAgrees(t, u) { assert StillAgrees(s, c, u); }
    }
  }

  /** One user's places, after the change. */
  predicate StillOnce(s: State, c: Change, u: string) {
    match c
    case Learns(ids, node) => u in ids ==> !RecordedOutside(s, u, {node})
    case Adds(id) => u == id ==> !Recorded(s, u)
    case _ => true
  }

  lemma OnceAfter(s: State, t: State, c: Change, u: string)
    requires PlacedOnce(s, u) && Changed(s, t, c)
    requires c.Learns? ==> c.ids !! s.connections
    ensures PlacedOnce(t, u) <==> StillOnce(s, c, u)
  {
    RecordedChange(s, t, c, u);
    assert u in t.connections <==> ConnectedAfter(s, c, u);
    if StillOnce(s, c, u) {
      forall m, n | m in t.nodeUsers && n in t.nodeUsers && u in t.nodeUsers[m] && u in t.nodeUsers[n] ensures m == n {
        assert RecordedAt(t, u, m) && RecordedAt(t, u, n);
        assert RecordedAfter(s, c, u, m) && RecordedAfter(s, c, u, n);
      }
    } else if c.Learns? {
      var n :| n in s.nodeUsers && n != c.node && u in s.nodeUsers[n];
      assert RecordedAt(t, u, n) && RecordedAt(t, u, c.node);
    }
  }

  /** When a change keeps every id in one place: exactly when what it brings was in no other. */
  lemma PlacesAfter(s: State, t: State, c: Change)
    requires OnePlaceEach(s) && Changed(s, t, c)
    requires c.Learns? ==> c.ids !! s.connections
    ensures OnePlaceEach(t) <==> KeepsPlaces(s, c)
  {
    forall u ensures PlacedOnce(t, u) <==> StillOnce(s, c, u) {
      assert PlacedOnce(s, u);
      OnceAfter(s, t, c, u);
    }
    if OnePlaceEach(t) {
      if c.Learns? {
        forall id | id in c.ids ensures !RecordedOutside(s, id, {c.node}) {
          assert PlacedOnce(t, id) && StillOnce(s, c, id);
        }
      } else if c.Adds? {
        assert PlacedOnce(t, c.id) && StillOnce(s, c, c.id);
      }
    }
    if KeepsPlaces(s, c) {
      forall u ensures PlacedOnce(t, u) { assert StillOnce(s, c, u); }
    }
  }

  lemma ChangeIsRemote(s: State, op: Op, env: Env)
    ensures var c := ChangeOf(s, op, env);
            (c.Forgets? ==> c.id !in s.connections) && (c.Learns? ==> c.ids !! s.connections)
  {}

  /** For every step of a node, whatever homes users have: agreeing tables still agree after it if and only if what
      the step takes out of one place, as seen before the step, is in no other. Only leaves, removals and sweeps
      take anything out. */
  lemma StepKeepsTables(s: State, op: Op, env: Env)
    requires TablesAgree(s) && ReadsComplete(op, env)
    ensures TablesAgree(Step(s, op, env)) <==> KeepsTables(s, ChangeOf(s, op, env))
  {
    StepChanges(s, op, env);
    ChangeIsRemote(s, op, env);
    TablesAfter(s, Step(s, op, env), ChangeOf(s, op, env));
  }

  /** And ids that were in one place each are so after it if and only if what the step brings in was not recorded
      elsewhere before. Only joins and answers from other nodes, and joins here, bring anything in. */
  lemma StepKeepsPlaces(s: State, op: Op, env: Env)
    requires OnePlaceEach(s) && ReadsComplete(op, env)
    ensures OnePlaceEach(Step(s, op, env)) <==> KeepsPlaces(s, ChangeOf(s, op, env))
  {
    StepChanges(s, op, env);
    ChangeIsRemote(s, op, env);
    PlacesAfter(s, Step(s, op, env), ChangeOf(s, op, env));
  }

  // ---------- the cases one by one ----------

  /** A leave from one node that arrives after the user was recorded under another as well. */
  lemma LateLeaveBreaksTables(s: State, ev: Event, id: string)
    requires TablesAgree(s) && ev.payload.GetStr("userId") == Some(id) && id !in s.connections && ev.nodeId != ""
    ensures TablesAgree(HandleUserLeft(s, ev)) <==> !RecordedOutside(s, id, {ev.nodeId})
  {
    LeaveChanges(s, ev, id);
    TablesAfter(s, HandleUserLeft(s, ev), Forgets(id, ev.nodeId));
  }

  /** A join handled from a second node. */
  lemma SecondJoinSharesUser(s: State, ev: Event, id: string, now: int)
    requires OnePlaceEach(s) && ev.payload.GetStr("userId") == Some(id) && id !in s.connections && ev.nodeId != ""
    ensures OnePlaceEach(HandleUserJoined(s, ev, now)) <==> !RecordedOutside(s, id, {ev.nodeId})
  {
    LearnChanges(s, ev.payload, id, ev.nodeId, now);
    PlacesAfter(s, HandleUserJoined(s, ev, now), Learns({id}, ev.nodeId));
  }

  /** A local join of a user recorded under another node. */
  lemma LocalJoinSharesUser(s: State, id: string, assigns: Object)
    requires OnePlaceEach(s) && s.active && id !in s.connections
    ensures OnePlaceEach(AddUser(s, id, assigns).0) <==> !Recorded(s, id)
  {
    AddChanges(s, id, assigns);
    PlacesAfter(s, AddUser(s, id, assigns).0, Adds(id));
  }

  /** A sweep of the old node of a user who is by then connected here or recorded under another node too. */
  lemma SweepBreaksTables(s: State, now: int, timeout: int)
    requires TablesAgree(s)
    ensures TablesAgree(CleanupStaleNodes(s, now, timeout)) <==>
              var stale := StaleNodes(s.lastSeen, now, timeout);
              forall u <- UsersOf(s.nodeUsers, stale) :: u !in s.connections && !RecordedOutside(s, u, stale)
  {
    SweepChanges(s, now, timeout);
    TablesAfter(s, CleanupStaleNodes(s, now, timeout), Drops(StaleNodes(s.lastSeen, now, timeout)));
  }

  // ---------- runs without homes ----------

  predicate AllPossible(w: Cluster.World, actions: seq<(Cluster.Action, Env)>)
    decreases |actions|
  {
    actions == [] ||
    (Cluster.Possible(w, actions[0].0, actions[0].1)
     && AllPossible(Cluster.Next(w, actions[0].0, actions[0].1), actions[1..]))
  }

  ghost predicate NetComplete(w: Cluster.World) {
    && (forall p <- w.net :: Complete(ReadAs(p, "")))
    && (forall n <- w.nodes :: w.nodes[n].nodeId == n && n != "")
  }

  lemma NextComplete(w: Cluster.World, a: Cluster.Action, env: Env)
    requires NetComplete(w) && Cluster.Possible(w, a, env)
    ensures NetComplete(Cluster.Next(w, a, env))
  {
    match a
    case Open(node, channel) =>
      var s := Start(Fresh(channel, node, true));
      NeutralGenuine(s, StateRequestEvent(channel, env.freshId, node), "state:request", (u: string) => node);
    case Local(node, op) => if node in w.nodes { StepComplete(w.nodes[node], op, env); }
    case Deliver(node, what, endpoint, messageId, timestamp) =>
      if node in w.nodes { StepComplete(w.nodes[node], Receive(Bytes(what, endpoint, messageId, timestamp)), env); }
  }

  lemma StepComplete(s: State, op: Op, env: Env)
    requires s.nodeId != ""
    ensures Step(s, op, env).nodeId == s.nodeId && forall p <- Sends(s, op, env) :: Complete(ReadAs(p, ""))
  {
    StepIdentity(s, op, env);
    SendsComplete(s, op, env);
  }

  lemma {:induction false} RunComplete(w: Cluster.World, actions: seq<(Cluster.Action, Env)>)
    requires NetComplete(w) && AllPossible(w, actions)
    ensures NetComplete(Cluster.Run(w, actions))
    decreases |actions|
  {
    if actions != [] {
      NextComplete(w, actions[0].0, actions[0].1);
      RunComplete(Cluster.Next(w, actions[0].0, actions[0].1), actions[1..]);
    }
  }

  /** In every run, with users anywhere: whatever message then arrives at a node, its agreeing tables still agree
      after it if and only if what the message takes out of one place is in no other, and ids in one place each stay
      so if and only if what it brings in is recorded nowhere else. */
  lemma ArrivalInRuns(actions: seq<(Cluster.Action, Env)>, n: string, p: Publication, endpoint: string, messageId: string,
                      timestamp: int, env: Env)
    requires AllPossible(Cluster.EMPTY, actions)
    requires var w := Cluster.Run(Cluster.EMPTY, actions); n in w.nodes && p in w.net
    ensures
      var s := Cluster.Run(Cluster.EMPTY, actions).nodes[n];
      var op := Receive(Bytes(p, endpoint, messageId, timestamp));
      && (TablesAgree(s) ==> (TablesAgree(Step(s, op, env)) <==> KeepsTables(s, ChangeOf(s, op, env))))
      && (OnePlaceEach(s) ==> (OnePlaceEach(Step(s, op, env)) <==> KeepsPlaces(s, ChangeOf(s, op, env))))
  {
    RunComplete(Cluster.EMPTY, actions);
    var s := Cluster.Run(Cluster.EMPTY, actions).nodes[n];
    var op := Receive(Bytes(p, endpoint, messageId, timestamp));
    PublishedIsComplete(p, endpoint, messageId, timestamp, env);
    if TablesAgree(s) { StepKeepsTables(s, op, env); }
    if OnePlaceEach(s) { StepKeepsPlaces(s, op, env); }
  }
}
