/** Which users a node holds data for, in every run over a network that may reorder, duplicate and lose. */
module Partition {
  import opened Json
  import opened Wire
  import opened ChannelSpec
  import opened NodeSteps
  import WireLaws

  type Homes = string -> string

  /** A user is known at a node: connected there if the node is its home, else recorded under its home. */
  predicate Known(s: State, u: string, home: Homes) {
    if home(u) == s.nodeId then u in s.connections
    else home(u) in s.nodeUsers && u in s.nodeUsers[home(u)]
  }

  predicate NamesUser(user: Value, key: string, node: string, home: Homes) {
    user.GetStr(key).Some? ==> home(user.GetStr(key).value) == node
  }

  /** A message about users of the node it comes from. */
  predicate Genuine(ev: Event, home: Homes) {
    && ev.nodeId != ""
    && (ev.action == USER_JOINED || ev.action == USER_LEFT ==> NamesUser(ev.payload, "userId", ev.nodeId, home))
    && (ev.action == USER_COMMAND && ev.event == "user:get_response" ==>
          NamesUser(ev.payload, "userId", ev.nodeId, home) && ev.payload.GetObj("assigns").Some?)
    && (ev.action == STATE_RESPONSE && ev.payload.Get("users").Some? && ev.payload.Get("users").value.Arr? ==>
          forall user <- ev.payload.Get("users").value.items :: NamesUser(user, "id", ev.nodeId, home))
  }

  /** What the invariant says about one user. */
  ghost predicate UserRight(s: State, u: string, home: Homes) {
    && (u in s.assigns <==> Known(s, u, home))
    && (u in s.connections ==> home(u) == s.nodeId)
    && (forall n | n in s.nodeUsers && u in s.nodeUsers[n] :: home(u) == n)
  }

  /** What the invariant says about one node that has recorded users. */
  predicate NodeRight(s: State, n: string) {
    n in s.nodeUsers ==> n != "" && n != s.nodeId && s.nodeUsers[n] != {} && n in s.lastSeen
  }

  /** The invariant of one node: the users it holds data for are its own and those recorded under other nodes. */
  ghost predicate Partitioned(s: State, home: Homes) {
    && s.nodeId != ""
    && (forall u :: UserRight(s, u, home))
    && (forall n :: NodeRight(s, n))
  }

  // ---------- state changes keep the partition ----------

  ghost predicate SameTables(s: State, t: State) {
    && t.nodeId == s.nodeId && t.connections == s.connections && t.nodeUsers == s.nodeUsers
    && (forall u :: u in t.assigns <==> u in s.assigns)
    && (forall n <- s.lastSeen :: n in t.lastSeen)
  }

  /** The partition does not depend on presence, on the queues or on assigned values. */
  lemma SameUsers(s: State, t: State, home: Homes)
    requires Partitioned(s, home)
    requires SameTables(s, t)
    ensures Partitioned(t, home)
  {
    forall u ensures UserRight(t, u, home) {
      assert UserRight(s, u, home);
    }
    forall n ensures NodeRight(t, n) { assert NodeRight(s, n); }
  }

  lemma TrackedPartitioned(s: State, t: State, id: string, node: string, home: Homes)
    requires Partitioned(s, home) && home(id) == node && node != s.nodeId && node != ""
    requires Learned(s, t, id, node)
    ensures Partitioned(t, home)
  {
    forall u ensures UserRight(t, u, home) {
      assert UserRight(s, u, home);
      assert u in t.assigns.Keys <==> u in s.assigns.Keys + {id};
    }
    forall n ensures NodeRight(t, n) { assert NodeRight(s, n); }
  }

  /** `t` is `s` with the user `id` newly learned from `node`. */
  predicate Learned(s: State, t: State, id: string, node: string) {
    && t.nodeId == s.nodeId && t.connections == s.connections
    && t.assigns.Keys == s.assigns.Keys + {id}
    && t.nodeUsers == s.nodeUsers[node := UsersAt(s.nodeUsers, node) + {id}]
    && t.lastSeen.Keys == s.lastSeen.Keys + {node}
  }

  lemma LearnShape(s: State, user: Value, id: string, node: string, now: int)
    requires id !in s.connections && node != ""
    ensures Learned(s, LearnUser(s, user, id, node, now), id, node)
  {}

  lemma FoundShape(s: State, ev: Event, id: string, now: int)
    requires ev.event == "user:get_response" && ev.payload.GetStr("userId") == Some(id)
    requires id !in s.connections && ev.nodeId != "" && ev.payload.GetObj("assigns").Some?
    ensures Learned(s, HandleCommand(s, ev, now), id, ev.nodeId)
  {}

  /** `t` is `s` without the user `id` of `node`. */
  predicate Unlearned(s: State, t: State, id: string, node: string) {
    && t.nodeId == s.nodeId && t.connections == s.connections && t.lastSeen == s.lastSeen
    && t.assigns.Keys == s.assigns.Keys - {id}
    && t.nodeUsers.Keys <= s.nodeUsers.Keys
    && (forall n <- s.nodeUsers :: n != node ==> n in t.nodeUsers && t.nodeUsers[n] == s.nodeUsers[n])
    && UsersAt(t.nodeUsers, node) == UsersAt(s.nodeUsers, node) - {id}
    && (node in t.nodeUsers ==> t.nodeUsers[node] != {})
  }

  lemma LeftShape(s: State, ev: Event, id: string)
    requires ev.payload.GetStr("userId") == Some(id) && id !in s.connections
    requires ev.nodeId != "" && (ev.nodeId in s.nodeUsers ==> s.nodeUsers[ev.nodeId] != {})
    ensures Unlearned(s, HandleUserLeft(s, ev), id, ev.nodeId)
  {}

  lemma LearnPartitioned(s: State, user: Value, id: string, node: string, now: int, home: Homes)
    requires Partitioned(s, home) && home(id) == node && node != s.nodeId && node != ""
    ensures Partitioned(LearnUser(s, user, id, node, now), home)
  {
    assert UserRight(s, id, home);
    LearnShape(s, user, id, node, now);
    TrackedPartitioned(s, LearnUser(s, user, id, node, now), id, node, home);
  }

  lemma {:induction false} LearnAllPartitioned(s: State, users: seq<Value>, node: string, now: int, home: Homes)
    requires Partitioned(s, home) && node != "" && node != s.nodeId
    requires forall user <- users :: NamesUser(user, "id", node, home)
    ensures Partitioned(LearnUsers(s, users, node, now), home)
    decreases |users|
  {
    if users != [] {
      var s1 := s;
      assert NamesUser(users[0], "id", node, home);
      if users[0].GetStr("id").Some? {
        LearnPartitioned(s, users[0], users[0].GetStr("id").value, node, now, home);
        s1 := LearnUser(s, users[0], users[0].GetStr("id").value, node, now);
      }
      LearnAllPartitioned(s1, users[1..], node, now, home);
    }
  }

  lemma UntrackedPartitioned(s: State, t: State, id: string, node: string, home: Homes)
    requires Partitioned(s, home) && home(id) == node && node != s.nodeId && node != ""
    requires Unlearned(s, t, id, node)
    ensures Partitioned(t, home)
  {
    forall u ensures UserRight(t, u, home) {
      assert UserRight(s, u, home);
      assert u in t.assigns.Keys <==> u in s.assigns.Keys - {id};
      assert u in UsersAt(t.nodeUsers, node) <==> u != id && u in UsersAt(s.nodeUsers, node);
    }
    forall n ensures NodeRight(t, n) { assert NodeRight(s, n); }
  }

  lemma LeftPartitioned(s: State, ev: Event, home: Homes)
    requires Partitioned(s, home) && ev.nodeId != "" && ev.nodeId != s.nodeId
    requires NamesUser(ev.payload, "userId", ev.nodeId, home)
    ensures Partitioned(HandleUserLeft(s, ev), home)
  {
    var who := ev.payload.GetStr("userId");
    if who.Some? && who.value !in s.connections {
      assert NodeRight(s, ev.nodeId);
      LeftShape(s, ev, who.value);
      UntrackedPartitioned(s, HandleUserLeft(s, ev), who.value, ev.nodeId, home);
    }
  }

  lemma FoundPartitioned(s: State, ev: Event, now: int, home: Homes)
    requires Partitioned(s, home) && ev.nodeId != "" && ev.nodeId != s.nodeId && ev.event == "user:get_response"
    requires NamesUser(ev.payload, "userId", ev.nodeId, home) && ev.payload.GetObj("assigns").Some?
    ensures Partitioned(HandleCommand(s, ev, now), home)
  {
    var who := ev.payload.GetStr("userId");
    if who.Some? && who.value !in s.connections {
      FoundShape(s, ev, who.value, now);
      TrackedPartitioned(s, HandleCommand(s, ev, now), who.value, ev.nodeId, home);
    }
  }

  /** A stale node takes its users along, and nobody else's. */
  lemma SweepPartitioned(s: State, now: int, timeout: int, home: Homes)
    requires Partitioned(s, home)
    ensures Partitioned(CleanupStaleNodes(s, now, timeout), home)
  {
    var stale := StaleNodes(s.lastSeen, now, timeout);
    var t := DropNodes(s, stale);
    forall u ensures UserRight(t, u, home) {
      assert UserRight(s, u, home);
      assert NodeRight(s, s.nodeId);
      UserOfStale(s, stale, u, home);
      assert u in t.assigns.Keys <==> u in s.assigns.Keys - UsersOf(s.nodeUsers, stale);
    }
    forall n ensures NodeRight(t, n) { assert NodeRight(s, n); }
    SameUsers(t, CleanupStaleNodes(s, now, timeout), home);
  }

  lemma UserOfStale(s: State, stale: set<string>, u: string, home: Homes)
    requires Partitioned(s, home)
    ensures u in UsersOf(s.nodeUsers, stale) <==> home(u) in stale && u in UsersAt(s.nodeUsers, home(u))
  {
    assert UserRight(s, u, home);
  }

  lemma RemovePartitioned(s: State, id: string, home: Homes)
    requires Partitioned(s, home)
    ensures Partitioned(RemoveUser(s, id), home)
  {
    if id in s.connections {
      var t := RemoveUser(s, id);
      forall u ensures UserRight(t, u, home) {
        assert UserRight(s, u, home) && UserRight(s, id, home);
        if u == id { assert u !in t.assigns; } else { assert u in t.assigns <==> u in s.assigns; }
      }
      forall n ensures NodeRight(t, n) { assert NodeRight(s, n); }
    }
  }

  lemma AddPartitioned(s: State, id: string, assigns: Object, home: Homes)
    requires Partitioned(s, home) && home(id) == s.nodeId
    ensures Partitioned(AddUser(s, id, assigns).0, home)
  {
    if s.active && id !in s.connections {
      var t := AddUser(s, id, assigns).0;
      forall u ensures UserRight(t, u, home) {
        assert UserRight(s, u, home) && UserRight(s, id, home);
      }
      forall n ensures NodeRight(t, n) { assert NodeRight(s, n); }
    }
  }

  lemma AssignPartitioned(s: State, id: string, key: string, value: Value, home: Homes)
    requires Partitioned(s, home)
    ensures Partitioned(UpdateAssign(s, id, key, value).0, home)
  {
    var t := UpdateAssign(s, id, key, value).0;
    assert UserRight(s, id, home);
    SameUsers(s, t, home);
  }

  lemma CommandPartitioned(s: State, ev: Event, now: int, home: Homes)
    requires Partitioned(s, home) && ev.action == USER_COMMAND && Genuine(ev, home) && ev.nodeId != s.nodeId
    ensures Partitioned(HandleCommand(s, ev, now), home)
  {
    var t := HandleCommand(s, ev, now);
    if ev.event == "user:get_response" {
      FoundPartitioned(s, ev, now, home);
    } else {
      var who := ev.payload.GetStr("userId");
      if who.Some? && (ev.event == "user:evict" || ev.event == "user:remove") {
        RemovePartitioned(s, who.value, home);
      } else {
        SameUsers(s, t, home);
      }
    }
  }

  lemma AssignsSameTables(s: State, ev: Event)
    ensures SameTables(s, HandleAssigns(s, ev))
  {}

  lemma OtherSameTables(s: State, ev: Event, env: Env)
    requires ev.action !in {USER_COMMAND, STATE_RESPONSE, USER_JOINED, USER_LEFT}
    ensures SameTables(s, Dispatch(s, ev, env))
  {
    if ev.action == ASSIGNS { AssignsSameTables(s, ev); }
  }

  lemma MembersPartitioned(s: State, ev: Event, env: Env, home: Homes)
    requires Partitioned(s, home) && Genuine(ev, home) && ev.nodeId != s.nodeId
    requires ev.action in {STATE_RESPONSE, USER_JOINED, USER_LEFT}
    ensures Partitioned(Dispatch(s, ev, env), home)
  {
    if ev.action == STATE_RESPONSE {
      var users := ev.payload.Get("users");
      if users.Some? && users.value.Arr? { LearnAllPartitioned(s, users.value.items, ev.nodeId, env.now, home); }
    } else if ev.action == USER_JOINED {
      var who := ev.payload.GetStr("userId");
      if who.Some? && who.value !in s.connections {
        LearnPartitioned(s, ev.payload, who.value, ev.nodeId, env.now, home);
      }
    } else {
      LeftPartitioned(s, ev, home);
    }
  }

  lemma DispatchPartitioned(s: State, ev: Event, env: Env, home: Homes)
    requires Partitioned(s, home) && Genuine(ev, home) && ev.nodeId != s.nodeId
    ensures Partitioned(Dispatch(s, ev, env), home)
  {
    if ev.action == USER_COMMAND {
      CommandPartitioned(s, ev, env.now, home);
    } else if ev.action in {STATE_RESPONSE, USER_JOINED, USER_LEFT} {
      MembersPartitioned(s, ev, env, home);
    } else {
      OtherSameTables(s, ev, env);
      SameUsers(s, Dispatch(s, ev, env), home);
    }
  }

  lemma MessagePartitioned(s: State, data: Value, env: Env, home: Homes)
    requires Partitioned(s, home)
    requires Decode(data, env.freshId).Some? ==> Genuine(Decode(data, env.freshId).value, home)
    ensures Partitioned(HandleMessage(s, data, env), home)
  {
    var ev := Decode(data, env.freshId);
    if ev.Some? && !(ev.value.nodeId != "" && ev.value.nodeId == s.nodeId) && ev.value.channelName == s.name {
      DispatchPartitioned(s, ev.value, env, home);
    }
  }

  predicate Quiet(op: Op) {
    op.Track? || op.Update? || op.Untrack? || op.AskForUser? || op.Say? || op.Heartbeat?
  }

  lemma QuietSameTables(s: State, op: Op, env: Env)
    requires Quiet(op)
    ensures SameTables(s, Step(s, op, env))
  {}

  /** Every step of a node keeps the partition, provided users are added at their home and messages are genuine. */
  lemma StepPartitioned(s: State, op: Op, env: Env, home: Homes)
    requires Partitioned(s, home)
    requires op.Add? ==> home(op.id) == s.nodeId
    requires op.Receive? && Decode(op.data, env.freshId).Some? ==> Genuine(Decode(op.data, env.freshId).value, home)
    ensures Partitioned(Step(s, op, env), home)
  {
    if Quiet(op) {
      QuietSameTables(s, op, env);
      SameUsers(s, Step(s, op, env), home);
    } else {
      match op
      case Add(id, assigns) => AddPartitioned(s, id, assigns, home);
      case Remove(id) => RemovePartitioned(s, id, home);
      case SetAssign(id, key, value) => AssignPartitioned(s, id, key, value, home);
      case Evict(id, reason) => RemovePartitioned(s, id, home);
      case Receive(data) => MessagePartitioned(s, data, env, home);
      case Sweep(timeout) => SweepPartitioned(s, env.now, timeout, home);
      case Shut =>
    }
  }

  // ---------- what a node publishes is genuine ----------

  /** Nothing is demanded of a message that neither adds nor removes users. */
  predicate Neutral(t: MessageType) {
    t != UserJoined && t != UserLeft && t != UserGetResponse && t != StateResponse
  }

  ghost predicate AllGenuine(sent: seq<Publication>, home: Homes) {
    forall p <- sent :: Genuine(ReadAs(p, ""), home)
  }

  lemma NeutralGenuine(s: State, ev: Event, subtype: string, home: Homes)
    requires s.nodeId != "" && Neutral(Classify(ev, subtype))
    ensures AllGenuine(Publish(s, ev, subtype), home)
  {
    NeutralRead(ev.(nodeId := s.nodeId), Classify(ev, subtype), home);
  }

  lemma NeutralRead(ev: Event, t: MessageType, home: Homes)
    requires ev.nodeId != "" && Neutral(t)
    ensures Genuine(WireLaws.Received(ev, t, ""), home)
  {}

  lemma JoinedGenuine(s: State, id: string, assigns: Object, rid: string, home: Homes)
    requires s.nodeId != "" && home(id) == s.nodeId
    ensures AllGenuine(Publish(s, JoinedEvent(s.name, rid, id, assigns), "user:joined"), home)
  {}

  lemma LeftGenuine(s: State, id: string, rid: string, home: Homes)
    requires s.nodeId != "" && home(id) == s.nodeId
    ensures AllGenuine(Publish(s, LeftEvent(s.name, rid, id), "user:left"), home)
  {}

  lemma FoundGenuine(s: State, id: string, assigns: Object, presence: Object, rid: string, home: Homes)
    requires s.nodeId != "" && home(id) == s.nodeId
    ensures AllGenuine(Publish(s, GetResponseEvent(s.name, rid, id, assigns, presence), "user:get_response"), home)
  {}

  lemma AnswerGenuine(s: State, keys: seq<string>, rid: string, home: Homes)
    requires s.nodeId != "" && forall k <- keys :: home(k) == s.nodeId
    ensures AllGenuine(HandleStateRequestSends(s, keys, rid), home)
  {
    var users := UserEntries(s.assigns, s.presence, keys);
    forall user <- users ensures NamesUser(user, "id", s.nodeId, home) {}
    var ev := StateResponseEvent(s.name, rid, users).(nodeId := s.nodeId);
    assert WireLaws.Received(ev, StateResponse, "").payload.Get("users") == Some(Arr(users));
  }

  lemma RemoveGenuine(s: State, id: string, rid: string, home: Homes)
    requires Partitioned(s, home)
    ensures AllGenuine(RemoveUserSends(s, id, rid), home)
  {
    if id in s.connections {
      assert UserRight(s, id, home);
      UntrackGenuine(s, id, rid, home);
      LeftGenuine(s, id, rid, home);
    }
  }

  lemma UntrackGenuine(s: State, id: string, rid: string, home: Homes)
    requires s.nodeId != ""
    ensures AllGenuine(UntrackPresenceSends(s, id, rid), home)
  {
    if id in s.presence {
      NeutralGenuine(s, PresenceEvent(s.name, rid, "LEAVE", id, s.presence[id]), "presence:leave", home);
    }
  }

  lemma CommandGenuine(s: State, ev: Event, rid: string, home: Homes)
    requires Partitioned(s, home)
    ensures AllGenuine(HandleCommandSends(s, ev, rid), home)
  {
    var who := ev.payload.GetStr("userId");
    if who.Some? && who.value in s.connections {
      var id := who.value;
      assert UserRight(s, id, home);
      RemoveGenuine(s, id, rid, home);
      FoundGenuine(s, id, Lookup(s.assigns, id), Lookup(s.presence, id),
                   ev.payload.GetStr("requestId").GetOr(ev.requestId), home);
    }
  }

  lemma MessageGenuine(s: State, data: Value, env: Env, home: Homes)
    requires Partitioned(s, home) && Enumerates(env.keys, s.connections)
    ensures AllGenuine(HandleMessageSends(s, data, env), home)
  {
    var decoded := Decode(data, env.freshId);
    if decoded.Some? {
      forall k <- env.keys ensures home(k) == s.nodeId { assert UserRight(s, k, home); }
      CommandGenuine(s, decoded.value, env.freshId, home);
      AnswerGenuine(s, env.keys, env.freshId, home);
    }
  }

  /** Whatever a node publishes speaks about its own users only. */
  lemma SendsGenuine(s: State, op: Op, env: Env, home: Homes)
    requires Partitioned(s, home) && Enumerates(env.keys, s.connections)
    requires op.Add? ==> home(op.id) == s.nodeId
    ensures AllGenuine(Sends(s, op, env), home)
  {
    var rid := env.freshId;
    match op
    case Add(id, assigns) => JoinedGenuine(s, id, assigns, rid, home);
    case Remove(id) => RemoveGenuine(s, id, rid, home);
    case Evict(id, reason) =>
      RemoveGenuine(s, id, rid, home);
      NeutralGenuine(s, CommandEvent(s.name, rid, "user:evict", id, reason), "user:evict", home);
    case Receive(data) => MessageGenuine(s, data, env, home);
    case _ => QuietGenuine(s, op, env, home);
  }

  /** What neither adds nor removes users publishes nothing that does. */
  lemma QuietGenuine(s: State, op: Op, env: Env, home: Homes)
    requires s.nodeId != "" && !op.Add? && !op.Remove? && !op.Evict? && !op.Receive?
    ensures AllGenuine(Sends(s, op, env), home)
  {
    var rid := env.freshId;
    match op
    case SetAssign(id, key, value) =>
      NeutralGenuine(s, AssignsEvent(s.name, rid, id, key, value, Updated(s, id, key, value)), "assigns:update", home);
    case Track(id, data) =>
      if data.Obj? { NeutralGenuine(s, PresenceEvent(s.name, rid, "JOIN", id, data.fields), "presence:join", home); }
    case Update(id, data) =>
      if data.Obj? { NeutralGenuine(s, PresenceEvent(s.name, rid, "UPDATE", id, data.fields), "presence:update", home); }
    case Untrack(id) => UntrackGenuine(s, id, rid, home);
    case AskForUser(id) => NeutralGenuine(s, GetRequestEvent(s.name, rid, id, s.nodeId), "user:get_request", home);
    case Say(cast, event, payload) => NeutralGenuine(s, CastEvent(s, cast, event, payload, rid), "message", home);
    case _ =>
  }
}
