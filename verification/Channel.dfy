/** One node's copy of a channel: the fields the server keeps behind locks and the methods that update them.
    Every method is one step; `Model` is the value the functions of `ChannelSpec` speak about. */
module ChannelReplica {
  import opened Json
  import opened Wire
  import opened ChannelSpec

  class Channel {
    const name: string
    const nodeId: string
    const distributed: bool
    var active: bool
    var connections: set<string>
    var assigns: map<string, Object>
    var presence: map<string, Object>
    var nodeUsers: map<string, set<string>>
    var nodeLastSeen: map<string, int>
    var outbox: seq<Publication>   // what was handed to the pub/sub, oldest first
    var dispatchQueue: seq<DispatchItem>
    var idleChecks: nat
    var inFlightJoins: nat

    ghost function Model(): State
      reads this
    {
      State(name, nodeId, distributed, active, connections, assigns, presence, nodeUsers, nodeLastSeen,
            dispatchQueue, idleChecks)
    }

    constructor (name: string, nodeId: string, distributed: bool)
      ensures Model() == Fresh(name, nodeId, distributed) && outbox == [] && inFlightJoins == 0
    {
      this.name, this.nodeId, this.distributed, active := name, nodeId, distributed, false;
      connections, assigns, presence, nodeUsers, nodeLastSeen := {}, map[], map[], map[], map[];
      outbox, dispatchQueue, idleChecks, inFlightJoins := [], [], 0, 0;
    }

    method BeginJoin()
      modifies this`inFlightJoins
      ensures inFlightJoins == old(inFlightJoins) + 1
    {
      inFlightJoins := inFlightJoins + 1;
    }

    method EndJoin()
      requires inFlightJoins > 0
      modifies this`inFlightJoins
      ensures inFlightJoins == old(inFlightJoins) - 1
    {
      inFlightJoins := inFlightJoins - 1;
    }

    method IsIdle() returns (idle: bool)
      ensures idle <==> inFlightJoins == 0 && NoUsersAnywhere(Model())
    {
      idle := connections == {} && inFlightJoins == 0 && forall n <- nodeUsers :: nodeUsers[n] == {};
    }

    // ---------- lifetime ----------

    method Start(requestId: string)
      modifies this
      ensures Model() == ChannelSpec.Start(old(Model())) && inFlightJoins == old(inFlightJoins)
      ensures outbox == old(outbox) + RequestStateSends(old(Model()), requestId)
    {
      active := true;
      PublishEvent(StateRequestEvent(name, requestId, nodeId), "state:request");
    }

    method Close()
      modifies this
      ensures Model() == ChannelSpec.Close(old(Model())) && outbox == old(outbox)
      ensures inFlightJoins == old(inFlightJoins)
    {
      active := false;
      connections, assigns, presence, nodeUsers, nodeLastSeen := {}, map[], map[], map[], map[];
    }

    method PublishEvent(ev: Event, subtype: string)
      modifies this`outbox
      ensures Model() == old(Model()) && outbox == old(outbox) + Publish(old(Model()), ev, subtype)
    {
      if !distributed { return; }
      outbox := outbox + [Publication(ev.(nodeId := nodeId), subtype)];
    }

    method ListConnections() returns (keys: seq<string>)
      ensures Enumerates(keys, connections)
    {
      keys := [];
      var rest := connections;
      while rest != {}
        invariant rest <= connections
        invariant Enumerates(keys, connections - rest)
      {
        var k :| k in rest;
        keys, rest := keys + [k], rest - {k};
      }
    }

    // ---------- local users ----------

    method AddUser(id: string, userAssigns: Object, requestId: string) returns (outcome: Outcome)
      modifies this
      ensures inFlightJoins == old(inFlightJoins)
      ensures (Model(), outcome) == ChannelSpec.AddUser(old(Model()), id, userAssigns)
      ensures outbox == old(outbox) + AddUserSends(old(Model()), id, userAssigns, requestId)
    {
      if !active { return Failed(NotActive); }
      if id in connections { return Failed(AlreadyInChannel); }
      connections := connections + {id};
      assigns := assigns[id := userAssigns];
      PublishEvent(JoinedEvent(name, requestId, id, userAssigns), "user:joined");
      return Done;
    }

    method RemoveUser(id: string, requestId: string)
      modifies this
      ensures inFlightJoins == old(inFlightJoins)
      ensures Model() == ChannelSpec.RemoveUser(old(Model()), id)
      ensures outbox == old(outbox) + RemoveUserSends(old(Model()), id, requestId)
    {
      if id !in connections { return; }
      connections := connections - {id};
      assigns := assigns - {id};
      if id in presence {
        var tracked := presence[id];
        presence := presence - {id};
        PublishPresenceChange(id, "LEAVE", "presence:leave", tracked, requestId);
      } else {
        assert presence - {id} == presence;
      }
      PublishEvent(LeftEvent(name, requestId, id), "user:left");
      idleChecks := idleChecks + 1;
    }

    method UpdateAssign(id: string, key: string, value: Value, requestId: string) returns (outcome: Outcome)
      modifies this
      ensures inFlightJoins == old(inFlightJoins)
      ensures (Model(), outcome) == ChannelSpec.UpdateAssign(old(Model()), id, key, value)
      ensures outbox == old(outbox) + UpdateAssignSends(old(Model()), id, key, value, requestId)
    {
      var current := if id in assigns then assigns[id] else map[];
      current := current[key := value];
      if id !in connections {
        PublishEvent(AssignsEvent(name, requestId, id, key, value, current), "assigns:update");
        return Failed(NotInChannel);
      }
      assigns := assigns[id := current];
      PublishEvent(AssignsEvent(name, requestId, id, key, value, current), "assigns:update");
      return Done;
    }

    method EvictUser(id: string, reason: string, requestId: string)
      modifies this
      ensures inFlightJoins == old(inFlightJoins)
      ensures Model() == ChannelSpec.RemoveUser(old(Model()), id)
      ensures outbox == old(outbox) + EvictUserSends(old(Model()), id, reason, requestId)
    {
      if id !in connections {
        PublishEvent(CommandEvent(name, requestId, "user:evict", id, reason), "user:evict");
      } else {
        RemoveUser(id, requestId);
      }
    }

    // ---------- presence ----------

    method PublishPresenceChange(id: string, kind: string, subtype: string, changed: Object, requestId: string)
      modifies this`outbox
      ensures Model() == old(Model())
      ensures outbox == old(outbox) + Publish(old(Model()), PresenceEvent(name, requestId, kind, id, changed), subtype)
    {
      var withId := if "userId" in changed then changed else changed["userId" := Str(id)];
      var ev := NewEvent(PRESENCE, name, requestId, kind, Obj(map["presence" := Arr([]), "changed" := Obj(withId)]));
      assert ev == PresenceEvent(name, requestId, kind, id, changed);
      PublishEvent(ev, subtype);
    }

    method TrackPresence(id: string, data: Value, requestId: string) returns (outcome: Outcome)
      modifies this
      ensures inFlightJoins == old(inFlightJoins)
      ensures (Model(), outcome) == ChannelSpec.TrackPresence(old(Model()), id, data)
      ensures outbox == old(outbox) + TrackPresenceSends(old(Model()), id, data, requestId)
    {
      if !data.Obj? { return Failed(BadPresence); }
      if id in presence { return Failed(AlreadyTracking); }
      presence := presence[id := data.fields];
      PublishPresenceChange(id, "JOIN", "presence:join", data.fields, requestId);
      return Done;
    }

    method UpdatePresence(id: string, data: Value, requestId: string) returns (outcome: Outcome)
      modifies this
      ensures inFlightJoins == old(inFlightJoins)
      ensures (Model(), outcome) == ChannelSpec.UpdatePresence(old(Model()), id, data)
      ensures outbox == old(outbox) + UpdatePresenceSends(old(Model()), id, data, requestId)
    {
      if !data.Obj? { return Failed(BadPresence); }
      if id !in presence { return Failed(NotTracking); }
      presence := presence[id := data.fields];
      PublishPresenceChange(id, "UPDATE", "presence:update", data.fields, requestId);
      return Done;
    }

    method UntrackPresence(id: string, requestId: string)
      modifies this
      ensures inFlightJoins == old(inFlightJoins)
      ensures Model() == ChannelSpec.UntrackPresence(old(Model()), id)
      ensures outbox == old(outbox) + UntrackPresenceSends(old(Model()), id, requestId)
    {
      if id !in presence {
        assert presence - {id} == presence;
        return;
      }
      var tracked := presence[id];
      presence := presence - {id};
      PublishPresenceChange(id, "LEAVE", "presence:leave", tracked, requestId);
    }

    // ---------- broadcasts ----------

    method SendEvent(ev: Event, recipients: seq<string>)
      modifies this`outbox, this`dispatchQueue
      ensures Model() == ChannelSpec.SendEvent(old(Model()), ev, recipients)
      ensures outbox == old(outbox) + SendEventSends(old(Model()), ev, recipients)
    {
      if recipients == [] { return; }
      dispatchQueue := dispatchQueue + [DispatchItem(ev, recipients)];
      PublishEvent(ev, "message");
    }

    /** `broadcast`, `broadcast_to` and `broadcast_from`. */
    method Broadcast(cast: Cast, event: string, payload: Value, requestId: string) returns (keys: seq<string>)
      modifies this`outbox, this`dispatchQueue
      ensures Enumerates(keys, old(connections))
      ensures var ev := CastEvent(old(Model()), cast, event, payload, requestId);
              && Model() == ChannelSpec.SendEvent(old(Model()), ev, CastRecipients(cast, keys))
              && outbox == old(outbox) + SendEventSends(old(Model()), ev, CastRecipients(cast, keys))
    {
      keys := ListConnections();
      var ev := Event(BROADCAST, name, requestId, payload, event, nodeId, [], "", "");
      match cast
      case ToAll => SendEvent(ev, keys);
      case ToListed(ids) => SendEvent(ev.(recipients := ids), ids);
      case ToOthers(sender) =>
        var others := FilterOut(keys, sender);
        SendEvent(ev.(recipientDescriptor := "ALL_EXCEPT_SENDER", fromUserId := sender), others);
    }

    static method FilterOut(ids: seq<string>, id: string) returns (kept: seq<string>)
      ensures kept == Without(ids, id)
    {
      kept := [];
      for i := 0 to |ids|
        invariant kept + Without(ids[i..], id) == Without(ids, id)
      {
        assert ids[i..][1..] == ids[i + 1..];
        if ids[i] != id { kept := kept + [ids[i]]; }
      }
      assert ids[|ids|..] == [];
    }

    method FilterConnected(ids: seq<string>) returns (kept: seq<string>)
      ensures kept == Among(ids, connections)
    {
      kept := [];
      for i := 0 to |ids|
        invariant kept + Among(ids[i..], connections) == Among(ids, connections)
      {
        assert ids[i..][1..] == ids[i + 1..];
        if ids[i] in connections { kept := kept + [ids[i]]; }
      }
      assert ids[|ids|..] == [];
    }

    // ---------- messages from other nodes ----------

    method HandlePubsubMessage(data: Value, freshId: string, now: int) returns (keys: seq<string>)
      modifies this
      ensures inFlightJoins == old(inFlightJoins)
      ensures Enumerates(keys, old(connections))
      ensures Model() == HandleMessage(old(Model()), data, Env(keys, freshId, now))
      ensures outbox == old(outbox) + HandleMessageSends(old(Model()), data, Env(keys, freshId, now))
    {
      keys := ListConnections();
      var decoded := Decode(data, freshId);
      if decoded.None? { return; }
      var ev := decoded.value;
      if ev.nodeId != "" && ev.nodeId == nodeId { return; }
      if ev.channelName != name { return; }
      DispatchEvent(ev, Env(keys, freshId, now));
    }

    method DispatchEvent(ev: Event, env: Env)
      modifies this
      ensures inFlightJoins == old(inFlightJoins)
      ensures Model() == Dispatch(old(Model()), ev, env)
      ensures outbox == old(outbox) + DispatchSends(old(Model()), ev, env)
    {
      if ev.action == PRESENCE {
        HandleRemotePresence(ev);
      } else if ev.action == ASSIGNS {
        HandleRemoteAssigns(ev);
      } else if ev.action == USER_COMMAND {
        HandleRemoteUserCommand(ev, env.freshId, env.now);
      } else if ev.action == STATE_REQUEST {
        AnswerStateRequest(env.keys, env.freshId);
      } else if ev.action == STATE_RESPONSE {
        TakeStateResponse(ev, env.now);
      } else if ev.action == USER_JOINED {
        HandleRemoteUserJoined(ev, env.now);
      } else if ev.action == USER_LEFT {
        HandleRemoteUserLeft(ev);
      } else {
        var recipients;
        if ev.recipients != [] {
          recipients := FilterConnected(ev.recipients);
        } else if ev.recipientDescriptor == "ALL_EXCEPT_SENDER" {
          recipients := FilterOut(env.keys, ev.fromUserId);
        } else {
          recipients := env.keys;
        }
        if recipients != [] {
          dispatchQueue := dispatchQueue + [DispatchItem(ev, recipients)];
        }
      }
    }

    method HandleRemotePresence(ev: Event)
      modifies this`presence
      ensures Model() == HandlePresence(old(Model()), ev)
    {
      var changed := ev.payload.GetObj("changed").GetOr(map[]);
      var who := if "userId" in changed then changed["userId"].AsStr() else Obj(changed).GetStr("id");
      if who.Some? {
        if ev.event == "LEAVE" {
          presence := presence - {who.value};
        } else {
          presence := presence[who.value := changed];
        }
      }
    }

    method HandleRemoteAssigns(ev: Event)
      modifies this`assigns
      ensures Model() == HandleAssigns(old(Model()), ev)
    {
      if ev.event != "assigns:update" { return; }
      var who := ev.payload.GetStr("userId");
      if who.None? || who.value !in assigns { return; }
      var current := assigns[who.value];
      var key := ev.payload.GetStr("key");
      if key.Some? {
        assigns := assigns[who.value := current[key.value := ev.payload.GetOr("value", Null)]];
      } else {
        var remote := ev.payload.GetObj("assigns");
        if remote.Some? {
          assigns := assigns[who.value := current + remote.value];
        } else {
          assert current + map[] == current && assigns[who.value := current] == assigns;
        }
      }
    }

    method HandleRemoteUserCommand(ev: Event, requestId: string, now: int)
      modifies this
      ensures inFlightJoins == old(inFlightJoins)
      ensures Model() == HandleCommand(old(Model()), ev, now)
      ensures outbox == old(outbox) + HandleCommandSends(old(Model()), ev, requestId)
    {
      var who := ev.payload.GetStr("userId");
      if who.None? { return; }
      var id := who.value;
      if ev.event == "user:evict" || ev.event == "user:remove" {
        if id in connections { RemoveUser(id, requestId); }
      } else if ev.event == "user:get_request" {
        if id in connections {
          var asked := ev.payload.GetStr("requestId").GetOr(ev.requestId);
          PublishEvent(GetResponseEvent(name, asked, id, Lookup(assigns, id), Lookup(presence, id)), "user:get_response");
        }
      } else if ev.event == "user:get_response" {
        if id !in connections {
          var known := ev.payload.GetObj("assigns");
          if known.Some? { assigns := assigns[id := known.value]; }
          TakePresence(id, ev.payload.GetObj("presence"));
          TrackUser(ev.nodeId, id, now);
        }
      }
    }

    method TakePresence(id: string, data: Option<Object>)
      modifies this`presence
      ensures presence == WithPresence(old(presence), id, data)
    {
      if data.Some? && |data.value| > 0 {
        presence := presence[id := data.value];
      }
    }

    method TrackUser(node: string, id: string, now: int)
      modifies this`nodeUsers, this`nodeLastSeen
      ensures nodeUsers == Tracked(old(nodeUsers), node, id)
      ensures nodeLastSeen == SeenOnce(old(nodeLastSeen), node, now)
    {
      if node == "" { return; }
      if node !in nodeUsers { nodeUsers := nodeUsers[node := {}]; }
      nodeUsers := nodeUsers[node := nodeUsers[node] + {id}];
      if node !in nodeLastSeen { nodeLastSeen := nodeLastSeen[node := now]; }
    }

    method UntrackUser(node: string, id: string)
      modifies this`nodeUsers
      ensures nodeUsers == Untracked(old(nodeUsers), node, id)
    {
      if node == "" { return; }
      if node in nodeUsers {
        var users := nodeUsers[node] - {id};
        if users == {} {
          nodeUsers := nodeUsers - {node};
        } else {
          nodeUsers := nodeUsers[node := users];
        }
      }
    }

    method TakeUser(user: Value, id: string, node: string, now: int)
      modifies this`assigns, this`presence, this`nodeUsers, this`nodeLastSeen
      ensures Model() == LearnUser(old(Model()), user, id, node, now)
    {
      if id in connections { return; }
      assigns := assigns[id := user.GetObj("assigns").GetOr(map[])];
      TakePresence(id, user.GetObj("presence"));
      TrackUser(node, id, now);
    }

    method HandleRemoteUserJoined(ev: Event, now: int)
      modifies this`assigns, this`presence, this`nodeUsers, this`nodeLastSeen
      ensures Model() == HandleUserJoined(old(Model()), ev, now)
    {
      var who := ev.payload.GetStr("userId");
      if who.Some? { TakeUser(ev.payload, who.value, ev.nodeId, now); }
    }

    method HandleRemoteUserLeft(ev: Event)
      modifies this`assigns, this`presence, this`nodeUsers, this`idleChecks
      ensures Model() == HandleUserLeft(old(Model()), ev)
    {
      var who := ev.payload.GetStr("userId");
      if who.None? || who.value in connections { return; }
      assigns := assigns - {who.value};
      presence := presence - {who.value};
      UntrackUser(ev.nodeId, who.value);
      idleChecks := idleChecks + 1;
    }

    method AnswerStateRequest(keys: seq<string>, requestId: string)
      modifies this`outbox
      ensures Model() == old(Model())
      ensures outbox == old(outbox) + HandleStateRequestSends(old(Model()), keys, requestId)
    {
      if keys == [] { return; }
      PublishEvent(StateResponseEvent(name, requestId, UserEntries(assigns, presence, keys)), "state:response");
    }

    method TakeStateResponse(ev: Event, now: int)
      modifies this`assigns, this`presence, this`nodeUsers, this`nodeLastSeen
      ensures Model() == HandleStateResponse(old(Model()), ev, now)
    {
      var list := ev.payload.Get("users");
      if list.None? || !list.value.Arr? { return; }
      var users := list.value.items;
      for i := 0 to |users|
        invariant LearnUsers(Model(), users[i..], ev.nodeId, now) == LearnUsers(old(Model()), users, ev.nodeId, now)
      {
        assert users[i..][1..] == users[i + 1..];
        var id := users[i].GetStr("id");
        if id.Some? { TakeUser(users[i], id.value, ev.nodeId, now); }
      }
      assert users[|users|..] == [];
    }

    // ---------- liveness ----------

    method HandleHeartbeatMessage(data: Value, freshId: string, now: int)
      modifies this`nodeLastSeen
      ensures Model() == HandleHeartbeat(old(Model()), data, Env([], freshId, now))
    {
      var decoded := Decode(data, freshId);
      if decoded.Some? && decoded.value.action == HEARTBEAT && decoded.value.nodeId != nodeId {
        nodeLastSeen := nodeLastSeen[decoded.value.nodeId := now];
      }
    }

    /** Removes the nodes that have not been seen for the timeout, one at a time, with all their users. */
    method CleanupStaleNodes(now: int, timeout: int)
      modifies this`assigns, this`presence, this`nodeUsers, this`nodeLastSeen, this`idleChecks
      ensures Model() == ChannelSpec.CleanupStaleNodes(old(Model()), now, timeout)
    {
      var stale := set n | n in nodeLastSeen && now - nodeLastSeen[n] >= timeout;
      if stale == {} { return; }
      var rest := stale;
      DropNone(Model());
      while rest != {}
        invariant rest <= stale
        invariant Model() == DropNodes(old(Model()), stale - rest)
      {
        var node :| node in rest;
        DropOneMore(old(Model()), stale - rest, node);
        assert stale - (rest - {node}) == stale - rest + {node};
        DropNode(node);
        rest := rest - {node};
      }
      assert stale - rest == stale;
      idleChecks := idleChecks + 1;
    }

    method DropNode(node: string)
      modifies this`assigns, this`presence, this`nodeUsers, this`nodeLastSeen
      ensures Model() == DropNodes(old(Model()), {node})
    {
      if node in nodeUsers {
        var users := nodeUsers[node];
        OneNode(nodeUsers, node);
        nodeUsers := nodeUsers - {node};
        RemoveData(users);
      } else {
        OneNode(nodeUsers, node);
        assert nodeUsers - {node} == nodeUsers;
        assert assigns - {} == assigns && presence - {} == presence;
      }
      nodeLastSeen := nodeLastSeen - {node};
    }

    method RemoveData(users: set<string>)
      modifies this`assigns, this`presence
      ensures assigns == old(assigns) - users
      ensures presence == old(presence) - users
    {
      var rest := users;
      while rest != {}
        invariant rest <= users
        invariant assigns == old(assigns) - (users - rest)
        invariant presence == old(presence) - (users - rest)
      {
        var user :| user in rest;
        assigns := assigns - {user};
        presence := presence - {user};
        rest := rest - {user};
      }
    }
  }

  lemma DropNone(s: State)
    ensures DropNodes(s, {}) == s
  {
    assert UsersOf(s.nodeUsers, {}) == {};
    assert s.nodeUsers - {} == s.nodeUsers && s.lastSeen - {} == s.lastSeen;
    assert s.assigns - {} == s.assigns && s.presence - {} == s.presence;
  }

  lemma OneNode(nodeUsers: map<string, set<string>>, node: string)
    ensures UsersOf(nodeUsers, {node}) == if node in nodeUsers then nodeUsers[node] else {}
  {
    assert node in {node};
  }

  lemma DropOneMore(s: State, nodes: set<string>, node: string)
    requires node !in nodes
    ensures DropNodes(s, nodes + {node}) == DropNodes(DropNodes(s, nodes), {node})
  {
    var t := DropNodes(s, nodes);
    var a, b := UsersOf(s.nodeUsers, nodes), UsersOf(t.nodeUsers, {node});
    OneNode(s.nodeUsers, node);
    OneNode(t.nodeUsers, node);
    assert UsersOf(s.nodeUsers, nodes + {node}) == a + b by {
      forall u | u in a + b ensures u in UsersOf(s.nodeUsers, nodes + {node}) {
        if u in a {
          var n :| n in nodes && n in s.nodeUsers && u in s.nodeUsers[n];
          assert n in nodes + {node};
        } else {
          assert node in nodes + {node} && node in s.nodeUsers;
        }
      }
    }
    assert s.nodeUsers - (nodes + {node}) == s.nodeUsers - nodes - {node};
    assert s.lastSeen - (nodes + {node}) == s.lastSeen - nodes - {node};
    assert s.assigns - (a + b) == s.assigns - a - b;
    assert s.presence - (a + b) == s.presence - a - b;
  }
}
