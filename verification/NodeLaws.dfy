/** What the steps of one node leave alone: which parts of its copy each may touch, which operations are refused, and
    which messages are none of its business. */
module NodeLaws {
  import opened Json
  import opened Wire
  import opened ChannelSpec
  import opened NodeSteps
  import WireLaws

  // ---------- messages that change nothing ----------

  /** Channels of different names are kept apart although they share one pub/sub. */
  lemma OtherChannelUntouched(m: State, p: Publication, endpoint: string, messageId: string, timestamp: int, env: Env)
    requires p.ev.channelName != m.name
    ensures var data := Bytes(p, endpoint, messageId, timestamp);
            Step(m, Receive(data), env) == m && Sends(m, Receive(data), env) == []
  {
    BytesRead(p, endpoint, messageId, timestamp, env.freshId);
    OriginRead(p, env.freshId);
    Unconcerned(m, Bytes(p, endpoint, messageId, timestamp), ReadAs(p, env.freshId), env);
  }

  /** A node does not act on its own messages when the pub/sub brings them back. */
  lemma OwnMessageUntouched(m: State, p: Publication, endpoint: string, messageId: string, timestamp: int, env: Env)
    requires p.ev.nodeId == m.nodeId != ""
    ensures var data := Bytes(p, endpoint, messageId, timestamp);
            Step(m, Receive(data), env) == m && Sends(m, Receive(data), env) == []
  {
    BytesRead(p, endpoint, messageId, timestamp, env.freshId);
    OriginRead(p, env.freshId);
    Unconcerned(m, Bytes(p, endpoint, messageId, timestamp), ReadAs(p, env.freshId), env);
  }

  /** A message that can be read is handled if and only if it is for this channel and not from this node; one without a
      source is nobody's own. */
  lemma HandledExactly(m: State, data: Value, ev: Event, env: Env)
    requires Decode(data, env.freshId) == Some(ev)
    ensures
      if ev.channelName == m.name && (ev.nodeId == "" || ev.nodeId != m.nodeId)
      then Step(m, Receive(data), env) == Dispatch(m, ev, env) && Sends(m, Receive(data), env) == DispatchSends(m, ev, env)
      else Step(m, Receive(data), env) == m && Sends(m, Receive(data), env) == []
  {
    if Concerns(m, ev) { HandlesRead(m, data, ev, env); } else { Unconcerned(m, data, ev, env); }
  }

  lemma UnreadUntouched(m: State, data: Value, env: Env)
    requires Decode(data, env.freshId) == None
    ensures Step(m, Receive(data), env) == m && Sends(m, Receive(data), env) == [] && Step(m, Heartbeat(data), env) == m
  {}

  lemma Unconcerned(m: State, data: Value, ev: Event, env: Env)
    requires Decode(data, env.freshId) == Some(ev) && !Concerns(m, ev)
    ensures Step(m, Receive(data), env) == m && Sends(m, Receive(data), env) == []
  {}

  lemma OriginRead(p: Publication, freshId: string)
    ensures ReadAs(p, freshId).channelName == p.ev.channelName && ReadAs(p, freshId).nodeId == p.ev.nodeId
  {}

  /** Without a pub/sub a node publishes nothing, whatever it does. */
  lemma UndistributedIsSilent(s: State, op: Op, env: Env)
    requires !s.distributed
    ensures Sends(s, op, env) == []
  {
    if op.Receive? && Decode(op.data, env.freshId).Some? { AnswersNothing(s, Decode(op.data, env.freshId).value, env); }
  }

  lemma AnswersNothing(s: State, ev: Event, env: Env)
    requires !s.distributed
    ensures DispatchSends(s, ev, env) == []
  {}

  // ---------- refusals ----------

  /** Joining is refused on an inactive channel and to a connected user. */
  lemma JoinRefused(s: State, id: string, assigns: Object, env: Env)
    ensures
      var (t, outcome) := AddUser(s, id, assigns);
      && (outcome == Failed(NotActive) <==> !s.active)
      && (outcome == Failed(AlreadyInChannel) <==> s.active && id in s.connections)
      && (outcome == Done <==> s.active && id !in s.connections)
      && (outcome != Done ==> t == s && Sends(s, Add(id, assigns), env) == [])
      && (outcome == Done ==> id in t.connections && id in t.assigns && t.assigns[id] == assigns)
  {}

  /** From `a` to `b` one key was set and the others kept. */
  predicate SetTo(a: Object, b: Object, key: string, value: Value) {
    key in b && b[key] == value && b - {key} == a - {key}
  }

  /** An update of a user who is not connected here is refused here, and published all the same. */
  lemma UpdateRefused(s: State, id: string, key: string, value: Value, env: Env)
    requires s.distributed
    ensures
      var (t, outcome) := UpdateAssign(s, id, key, value);
      && (outcome == Failed(NotInChannel) <==> id !in s.connections)
      && (outcome == Done <==> id in s.connections)
      && (outcome != Done ==> t == s)
      && (outcome == Done ==> id in t.assigns && SetTo(Lookup(s.assigns, id), t.assigns[id], key, value))
      && |Sends(s, SetAssign(id, key, value), env)| == 1
  {}

  /** A presence is an object; it is tracked once and updated while it is tracked. */
  lemma PresenceRefused(s: State, id: string, data: Value, env: Env)
    ensures
      var (t, outcome) := TrackPresence(s, id, data);
      && (outcome == Failed(BadPresence) <==> !data.Obj?)
      && (outcome == Failed(AlreadyTracking) <==> data.Obj? && id in s.presence)
      && (outcome == Done <==> data.Obj? && id !in s.presence)
      && (outcome != Done ==> t == s && Sends(s, Track(id, data), env) == [])
    ensures
      var (t, outcome) := UpdatePresence(s, id, data);
      && (outcome == Failed(BadPresence) <==> !data.Obj?)
      && (outcome == Failed(NotTracking) <==> data.Obj? && id !in s.presence)
      && (outcome == Done <==> data.Obj? && id in s.presence)
      && (outcome != Done ==> t == s && Sends(s, Update(id, data), env) == [])
    ensures id !in s.presence ==> Sends(s, Untrack(id), env) == []
  {}

  // ---------- frames ----------

  /** Exactly the user goes, with all data, if connected here; then the lobby is asked once whether the channel is idle. */
  predicate OnlyLeaves(s: State, t: State, id: string) {
    if id !in s.connections then t == s
    else
      && t == s.(connections := t.connections, assigns := t.assigns, presence := t.presence, idleChecks := t.idleChecks)
      && t.connections == s.connections - {id} && t.assigns == s.assigns - {id} && t.presence == s.presence - {id}
      && t.idleChecks == s.idleChecks + 1
  }

  /** What an operation of the application may touch. */
  predicate Touches(s: State, t: State, op: Op) {
    match op
    case Add(id, _) =>
      && t == s.(connections := t.connections, assigns := t.assigns)
      && (t == s || (t.connections == s.connections + {id} && t.assigns - {id} == s.assigns - {id}))
    case Remove(id) => OnlyLeaves(s, t, id)
    case Evict(id, _) => OnlyLeaves(s, t, id)
    case SetAssign(id, _, _) => t == s.(assigns := t.assigns) && t.assigns - {id} == s.assigns - {id}
    case Track(id, _) => t == s.(presence := t.presence) && t.presence - {id} == s.presence - {id}
    case Update(id, _) => t == s.(presence := t.presence) && t.presence - {id} == s.presence - {id}
    case Untrack(id) => t == s.(presence := t.presence) && t.presence == s.presence - {id}
    case AskForUser(_) => t == s
    case Say(_, _, _) => t == s.(dispatchQueue := t.dispatchQueue) && s.dispatchQueue <= t.dispatchQueue
    case Heartbeat(_) => t == s.(lastSeen := t.lastSeen)
    case Sweep(_) => t.connections == s.connections && t.active == s.active && t.dispatchQueue == s.dispatchQueue
    case Shut =>
      && !t.active && NoUsersAnywhere(t) && t.dispatchQueue == s.dispatchQueue
      && t.assigns == map[] && t.presence == map[] && t.nodeUsers == map[] && t.lastSeen == map[]
    case Receive(_) => true
  }

  lemma UserFrame(s: State, op: Op, env: Env)
    requires op.Add? || op.Remove? || op.Evict? || op.SetAssign?
    ensures Touches(s, Step(s, op, env), op)
  {}

  lemma PresenceFrame(s: State, op: Op, env: Env)
    requires op.Track? || op.Update? || op.Untrack?
    ensures Touches(s, Step(s, op, env), op)
  {}

  lemma OperationFrame(s: State, op: Op, env: Env)
    ensures Touches(s, Step(s, op, env), op)
  {
    if op.Add? || op.Remove? || op.Evict? || op.SetAssign? {
      UserFrame(s, op, env);
    } else if op.Track? || op.Update? || op.Untrack? {
      PresenceFrame(s, op, env);
    }
  }

  predicate OnlyMembers(s: State, t: State) {
    t == s.(assigns := t.assigns, presence := t.presence, nodeUsers := t.nodeUsers, lastSeen := t.lastSeen)
  }

  lemma {:induction false} LearnFrame(s: State, users: seq<Value>, node: string, now: int)
    ensures OnlyMembers(s, LearnUsers(s, users, node, now))
    decreases |users|
  {
    if users != [] {
      var s1 := match users[0].GetStr("id") case None => s case Some(id) => LearnUser(s, users[0], id, node, now);
      LearnFrame(s1, users[1..], node, now);
    }
  }

  lemma CommandFrame(s: State, ev: Event, now: int)
    requires ev.payload.GetStr("userId").Some?
    ensures
      var t, id := HandleCommand(s, ev, now), ev.payload.GetStr("userId").value;
      if ev.event == "user:evict" || ev.event == "user:remove" then OnlyLeaves(s, t, id)
      else OnlyMembers(s, t) && (ev.event != "user:get_response" || id in s.connections ==> t == s)
  {}

  lemma UserlessFrame(s: State, ev: Event, env: Env)
    requires ev.payload.GetStr("userId").None?
    requires ev.action in {ASSIGNS, USER_COMMAND, USER_JOINED, USER_LEFT}
    ensures Dispatch(s, ev, env) == s && DispatchSends(s, ev, env) == []
  {}

  /** What a message may touch, by its kind: presence, assigns, members, or the queue of events to deliver. */
  lemma MessageFrame(s: State, ev: Event, env: Env)
    ensures
      var t := Dispatch(s, ev, env);
      match ev.action
      case PRESENCE => t == s.(presence := t.presence)
      case ASSIGNS => t == s.(assigns := t.assigns)
      case USER_COMMAND => t.nodeUsers == s.nodeUsers || OnlyMembers(s, t)
      case STATE_REQUEST => t == s
      case STATE_RESPONSE => OnlyMembers(s, t)
      case USER_JOINED => OnlyMembers(s, t)
      case USER_LEFT => OnlyMembers(s, t.(idleChecks := s.idleChecks)) && t.lastSeen == s.lastSeen
                        && s.idleChecks <= t.idleChecks <= s.idleChecks + 1
      case _ => t == s.(dispatchQueue := t.dispatchQueue) && s.dispatchQueue <= t.dispatchQueue
  {
    var users := ev.payload.Get("users");
    match ev.action
    case USER_COMMAND => if ev.payload.GetStr("userId").Some? { CommandFrame(s, ev, env.now); }
    case STATE_RESPONSE => if users.Some? && users.value.Arr? { LearnFrame(s, users.value.items, ev.nodeId, env.now); }
    case _ =>
  }

  /** Nobody is recorded for a node without an id, and no such node counts as seen, whatever a message from there says. */
  lemma NamelessUnrecorded(s: State, ev: Event, env: Env)
    requires ev.nodeId == ""
    ensures Dispatch(s, ev, env).nodeUsers == s.nodeUsers && Dispatch(s, ev, env).lastSeen == s.lastSeen
  {
    var users := ev.payload.Get("users");
    match ev.action
    case STATE_RESPONSE => if users.Some? && users.value.Arr? { NamelessLearned(s, users.value.items, env.now); }
    case USER_COMMAND => NamelessCommand(s, ev, env.now);
    case _ =>
  }

  lemma NamelessCommand(s: State, ev: Event, now: int)
    requires ev.nodeId == ""
    ensures HandleCommand(s, ev, now).nodeUsers == s.nodeUsers && HandleCommand(s, ev, now).lastSeen == s.lastSeen
  {}

  lemma {:induction false} NamelessLearned(s: State, users: seq<Value>, now: int)
    ensures var t := LearnUsers(s, users, "", now); t.nodeUsers == s.nodeUsers && t.lastSeen == s.lastSeen
    decreases |users|
  {
    if users != [] {
      var s1 := match users[0].GetStr("id") case None => s case Some(id) => LearnUser(s, users[0], id, "", now);
      NamelessLearned(s1, users[1..], now);
    }
  }

  /** What the handler of heartbeats counts: heartbeats of other nodes, as seeing the node now, and nothing else. */
  lemma HeartbeatDecided(s: State, data: Value, ev: Event, env: Env, node: string)
    requires Decode(data, env.freshId) == Some(ev)
    ensures
      var t := Step(s, Heartbeat(data), env);
      var heard := ev.action == HEARTBEAT && ev.nodeId != s.nodeId && ev.nodeId == node;
      && t == s.(lastSeen := t.lastSeen)
      && (node in t.lastSeen <==> node in s.lastSeen || heard)
      && (node in t.lastSeen ==> t.lastSeen[node] == if heard then env.now else s.lastSeen[node])
  {}

  /** A state request is answered once by a node with users, and not at all by one without. */
  lemma RequestAnswered(s: State, ev: Event, env: Env)
    requires s.distributed && ev.action == STATE_REQUEST && Enumerates(env.keys, s.connections)
    ensures Dispatch(s, ev, env) == s
    ensures |DispatchSends(s, ev, env)| == if s.connections == {} then 0 else 1
  {
    if env.keys != [] { assert env.keys[0] in s.connections; }
  }

  // ---------- assigns from another node ----------

  lemma DecodedAssigns(data: Value, freshId: string)
    requires Decode(data, freshId).Some? && Decode(data, freshId).value.action == ASSIGNS
    ensures Decode(data, freshId).value.event == "assigns:update"
  {}

  /** A message about assigns sets the key that it names, and without a key all that it carries; it is for a user whose
      assigns are known here, and for nobody else. */
  lemma AssignsDecided(s: State, data: Value, ev: Event, u: string, env: Env)
    requires Decode(data, env.freshId) == Some(ev) && Concerns(s, ev) && ev.action == ASSIGNS
    requires ev.payload.GetStr("userId") == Some(u)
    ensures
      var t := Step(s, Receive(data), env);
      && t == s.(assigns := t.assigns) && t.assigns.Keys == s.assigns.Keys
      && (forall x | x in s.assigns && x != u :: t.assigns[x] == s.assigns[x])
      && (u in s.assigns ==>
            match ev.payload.GetStr("key")
            case Some(key) => t.assigns[u] == s.assigns[u][key := ev.payload.GetOr("value", Null)]
            case None =>
              var carried := ev.payload.GetObj("assigns").GetOr(map[]);
              && t.assigns[u].Keys == s.assigns[u].Keys + carried.Keys
              && forall k <- t.assigns[u] :: t.assigns[u][k] == if k in carried then carried[k] else s.assigns[u][k])
  {
    DecodedAssigns(data, env.freshId);
    HandlesRead(s, data, ev, env);
  }
}
