/** What each operation of a server channel does to the channel's state, and what it publishes, as functions:
    for an operation `Op` the new state is `Op(s, ..)` and the publications are `OpSends(s, ..)`.
    A channel keeps its own users in `connections`; `assigns` and `presence` hold data of its own users and
    of the users it has learned other nodes have, which `nodeUsers` records by node. */
module ChannelSpec {
  import opened Json
  import opened Wire

  /** An event handed to the pub/sub, with the subtype its encoding depends on. */
  datatype Publication = Publication(ev: Event, subtype: string)

  /** An event waiting in the dispatch queue for local recipients. */
  datatype DispatchItem = DispatchItem(event: Event, recipients: seq<string>)

  datatype State = State(
    name: string,
    nodeId: string,
    distributed: bool,                      // a pub/sub is configured and the endpoint path is not empty
    active: bool,
    connections: set<string>,
    assigns: map<string, Object>,
    presence: map<string, Object>,
    nodeUsers: map<string, set<string>>,
    lastSeen: map<string, int>,
    dispatchQueue: seq<DispatchItem>,
    idleChecks: nat)                        // how often the lobby was asked to look whether the channel is idle

  function Fresh(name: string, nodeId: string, distributed: bool): State {
    State(name, nodeId, distributed, false, {}, map[], map[], map[], map[], [], 0)
  }

  datatype Error = NotActive | AlreadyInChannel | NotInChannel | BadPresence | AlreadyTracking | NotTracking
  datatype Outcome = Done | Failed(error: Error)

  // ---------- publishing ----------

  function Publish(s: State, ev: Event, subtype: string): seq<Publication> {
    if s.distributed then [Publication(ev.(nodeId := s.nodeId), subtype)] else []
  }

  function JoinedEvent(channel: string, requestId: string, id: string, assigns: Object): Event {
    NewEvent(USER_JOINED, channel, requestId, "user:joined",
             Obj(map["userId" := Str(id), "presence" := EMPTY_OBJ, "assigns" := Obj(assigns)]))
  }

  function LeftEvent(channel: string, requestId: string, id: string): Event {
    NewEvent(USER_LEFT, channel, requestId, "user:left", Obj(map["userId" := Str(id)]))
  }

  function AssignsEvent(channel: string, requestId: string, id: string, key: string, value: Value, assigns: Object): Event {
    NewEvent(ASSIGNS, channel, requestId, "assigns:update",
             Obj(map["userId" := Str(id), "key" := Str(key), "value" := value, "assigns" := Obj(assigns)]))
  }

  function CommandEvent(channel: string, requestId: string, command: string, id: string, reason: string): Event {
    NewEvent(USER_COMMAND, channel, requestId, command, Obj(map["userId" := Str(id), "reason" := Str(reason)]))
  }

  function GetRequestEvent(channel: string, requestId: string, id: string, fromNode: string): Event {
    NewEvent(USER_COMMAND, channel, requestId, "user:get_request",
             Obj(map["userId" := Str(id), "requestId" := Str(requestId), "fromNode" := Str(fromNode)]))
  }

  function GetResponseEvent(channel: string, requestId: string, id: string, assigns: Object, presence: Object): Event {
    NewEvent(USER_COMMAND, channel, requestId, "user:get_response",
             Obj(map["userId" := Str(id), "requestId" := Str(requestId), "assigns" := Obj(assigns),
                     "presence" := Obj(presence)]))
  }

  function StateRequestEvent(channel: string, requestId: string, fromNode: string): Event {
    NewEvent(STATE_REQUEST, channel, requestId, "state:request", Obj(map["fromNode" := Str(fromNode)]))
  }

  function StateResponseEvent(channel: string, requestId: string, users: seq<Value>): Event {
    NewEvent(STATE_RESPONSE, channel, requestId, "state:response", Obj(map["users" := Arr(users)]))
  }

  function Lookup(m: map<string, Object>, id: string): Object {
    if id in m then m[id] else map[]
  }

  /** One entry of a state response. */
  function UserEntry(assigns: map<string, Object>, presence: map<string, Object>, id: string): Value {
    Obj(map["id" := Str(id), "assigns" := Obj(Lookup(assigns, id)), "presence" := Obj(Lookup(presence, id))])
  }

  function UserEntries(assigns: map<string, Object>, presence: map<string, Object>, ids: seq<string>)
    : (users: seq<Value>)
    ensures |users| == |ids|
    ensures forall i :: 0 <= i < |ids| ==> users[i] == UserEntry(assigns, presence, ids[i])
  {
    seq(|ids|, i requires 0 <= i < |ids| => UserEntry(assigns, presence, ids[i]))
  }

  /** Wire form of a presence change. The snapshot of all presences that local clients get is not
      part of any protocol message (`Wire.Body`), so it is left empty here. */
  function PresenceEvent(channel: string, requestId: string, kind: string, id: string, changed: Object): Event {
    NewEvent(PRESENCE, channel, requestId, kind,
             Obj(map["presence" := Arr([]), "changed" := WithUserId(Obj(changed), Str(id))]))
  }

  // ---------- local operations ----------

  function AddUser(s: State, id: string, assigns: Object): (State, Outcome) {
    if !s.active then (s, Failed(NotActive))
    else if id in s.connections then (s, Failed(AlreadyInChannel))
    else (s.(connections := s.connections + {id}, assigns := s.assigns[id := assigns]), Done)
  }

  function AddUserSends(s: State, id: string, assigns: Object, requestId: string): seq<Publication> {
    if !s.active || id in s.connections then []
    else Publish(s, JoinedEvent(s.name, requestId, id, assigns), "user:joined")
  }

  function RemoveUser(s: State, id: string): State {
    if id !in s.connections then s
    else
      s.(connections := s.connections - {id}, assigns := s.assigns - {id}, presence := s.presence - {id},
         idleChecks := s.idleChecks + 1)
  }

  function RemoveUserSends(s: State, id: string, requestId: string): seq<Publication> {
    if id !in s.connections then []
    else
      UntrackPresenceSends(s, id, requestId) + Publish(s, LeftEvent(s.name, requestId, id), "user:left")
  }

  /** The assigns of a user after one of them is set. */
  function Updated(s: State, id: string, key: string, value: Value): Object {
    Lookup(s.assigns, id)[key := value]
  }

  function UpdateAssign(s: State, id: string, key: string, value: Value): (State, Outcome) {
    if id !in s.connections then (s, Failed(NotInChannel))
    else (s.(assigns := s.assigns[id := Updated(s, id, key, value)]), Done)
  }

  /** An update is published whether the user is connected here or not. */
  function UpdateAssignSends(s: State, id: string, key: string, value: Value, requestId: string): seq<Publication> {
    Publish(s, AssignsEvent(s.name, requestId, id, key, value, Updated(s, id, key, value)), "assigns:update")
  }

  function TrackPresence(s: State, id: string, presence: Value): (State, Outcome) {
    if !presence.Obj? then (s, Failed(BadPresence))
    else if id in s.presence then (s, Failed(AlreadyTracking))
    else (s.(presence := s.presence[id := presence.fields]), Done)
  }

  function TrackPresenceSends(s: State, id: string, presence: Value, requestId: string): seq<Publication> {
    if !presence.Obj? || id in s.presence then []
    else Publish(s, PresenceEvent(s.name, requestId, "JOIN", id, presence.fields), "presence:join")
  }

  function UpdatePresence(s: State, id: string, presence: Value): (State, Outcome) {
    if !presence.Obj? then (s, Failed(BadPresence))
    else if id !in s.presence then (s, Failed(NotTracking))
    else (s.(presence := s.presence[id := presence.fields]), Done)
  }

  function UpdatePresenceSends(s: State, id: string, presence: Value, requestId: string): seq<Publication> {
    if !presence.Obj? || id !in s.presence then []
    else Publish(s, PresenceEvent(s.name, requestId, "UPDATE", id, presence.fields), "presence:update")
  }

  function UntrackPresence(s: State, id: string): State {
    s.(presence := s.presence - {id})
  }

  function UntrackPresenceSends(s: State, id: string, requestId: string): seq<Publication> {
    if id !in s.presence then []
    else Publish(s, PresenceEvent(s.name, requestId, "LEAVE", id, s.presence[id]), "presence:leave")
  }

  /** A user connected here is removed; for any other user the eviction is left to its node. */
  function EvictUserSends(s: State, id: string, reason: string, requestId: string): seq<Publication> {
    if id in s.connections then RemoveUserSends(s, id, requestId)
    else Publish(s, CommandEvent(s.name, requestId, "user:evict", id, reason), "user:evict")
  }

  function RequestUserSends(s: State, id: string, requestId: string): seq<Publication> {
    Publish(s, GetRequestEvent(s.name, requestId, id, s.nodeId), "user:get_request")
  }

  function RequestStateSends(s: State, requestId: string): seq<Publication> {
    Publish(s, StateRequestEvent(s.name, requestId, s.nodeId), "state:request")
  }

  // ---------- sending events ----------

  /** The event a broadcast is delivered and published as. */
  function BroadcastEvent(s: State, event: string, payload: Value, requestId: string, listed: seq<string>,
                          descriptor: string, sender: string): Event {
    Event(BROADCAST, s.name, requestId, payload, event, s.nodeId, listed, sender, descriptor)
  }

  function Queued(queue: seq<DispatchItem>, ev: Event, recipients: seq<string>): seq<DispatchItem> {
    if recipients == [] then queue else queue + [DispatchItem(ev, recipients)]
  }

  /** `send_event`: without local recipients nothing is queued and nothing is published. */
  function SendEvent(s: State, ev: Event, recipients: seq<string>): State {
    s.(dispatchQueue := Queued(s.dispatchQueue, ev, recipients))
  }

  function SendEventSends(s: State, ev: Event, recipients: seq<string>): seq<Publication> {
    if recipients == [] then [] else Publish(s, ev, "message")
  }

  function Without(ids: seq<string>, id: string): seq<string> {
    if ids == [] then [] else (if ids[0] == id then [] else [ids[0]]) + Without(ids[1..], id)
  }

  function Among(ids: seq<string>, connected: set<string>): seq<string> {
    if ids == [] then [] else (if ids[0] in connected then [ids[0]] else []) + Among(ids[1..], connected)
  }

  /** A broadcast to everybody, to listed users, or to everybody but the sender. */
  datatype Cast = ToAll | ToListed(ids: seq<string>) | ToOthers(sender: string)

  function CastEvent(s: State, cast: Cast, event: string, payload: Value, requestId: string): Event {
    match cast
    case ToAll => BroadcastEvent(s, event, payload, requestId, [], "", "")
    case ToListed(ids) => BroadcastEvent(s, event, payload, requestId, ids, "", "")
    case ToOthers(sender) => BroadcastEvent(s, event, payload, requestId, [], "ALL_EXCEPT_SENDER", sender)
  }

  /** The recipients on the sending node; `keys` is the order in which its connection map is listed. */
  function CastRecipients(cast: Cast, keys: seq<string>): seq<string> {
    match cast
    case ToAll => keys
    case ToListed(ids) => ids
    case ToOthers(sender) => Without(keys, sender)
  }

  // ---------- remote users ----------

  function UsersAt(nodeUsers: map<string, set<string>>, node: string): set<string> {
    if node in nodeUsers then nodeUsers[node] else {}
  }

  /** `track_node_user`: the user is recorded under the node, and a node not seen before counts as seen now. */
  function Tracked(nodeUsers: map<string, set<string>>, node: string, id: string): map<string, set<string>> {
    if node == "" then nodeUsers else nodeUsers[node := UsersAt(nodeUsers, node) + {id}]
  }

  function SeenOnce(lastSeen: map<string, int>, node: string, now: int): map<string, int> {
    if node == "" || node in lastSeen then lastSeen else lastSeen[node := now]
  }

  /** `untrack_node_user`: a node left without users is forgotten. */
  function Untracked(nodeUsers: map<string, set<string>>, node: string, id: string): map<string, set<string>> {
    if node == "" || node !in nodeUsers then nodeUsers
    else if nodeUsers[node] - {id} == {} then nodeUsers - {node}
    else nodeUsers[node := nodeUsers[node] - {id}]
  }

  /** Presence is taken over only when it is an object that says something. */
  function WithPresence(presence: map<string, Object>, id: string, data: Option<Object>): map<string, Object> {
    if data.Some? && |data.value| > 0 then presence[id := data.value] else presence
  }

  function LearnUser(s: State, user: Value, id: string, node: string, now: int): State {
    if id in s.connections then s
    else
      s.(assigns := s.assigns[id := user.GetObj("assigns").GetOr(map[])],
         presence := WithPresence(s.presence, id, user.GetObj("presence")),
         nodeUsers := Tracked(s.nodeUsers, node, id),
         lastSeen := SeenOnce(s.lastSeen, node, now))
  }

  function HandleUserJoined(s: State, ev: Event, now: int): State {
    match ev.payload.GetStr("userId")
    case None => s
    case Some(id) => LearnUser(s, ev.payload, id, ev.nodeId, now)
  }

  function LearnUsers(s: State, users: seq<Value>, node: string, now: int): State
    decreases |users|
  {
    if users == [] then s
    else
      var s1 := match users[0].GetStr("id")
                case None => s
                case Some(id) => LearnUser(s, users[0], id, node, now);
      LearnUsers(s1, users[1..], node, now)
  }

  function HandleStateResponse(s: State, ev: Event, now: int): State {
    match ev.payload.Get("users")
    case None => s
    case Some(v) => if v.Arr? then LearnUsers(s, v.items, ev.nodeId, now) else s
  }

  function HandleUserLeft(s: State, ev: Event): State {
    match ev.payload.GetStr("userId")
    case None => s
    case Some(id) =>
      if id in s.connections then s
      else
        s.(assigns := s.assigns - {id}, presence := s.presence - {id},
           nodeUsers := Untracked(s.nodeUsers, ev.nodeId, id), idleChecks := s.idleChecks + 1)
  }

  /** What an assigns message does to the assigns of all users: nothing for a user without any here. */
  function MergedAssigns(assigns: map<string, Object>, ev: Event): map<string, Object> {
    match ev.payload.GetStr("userId")
    case None => assigns
    case Some(id) =>
      if ev.event != "assigns:update" || id !in assigns then assigns
      else assigns[id := MergedFields(assigns[id], ev.payload)]
  }

  /** A message with a key sets that key; one without sets all the assigns it carries. */
  function MergedFields(current: Object, payload: Value): Object {
    match payload.GetStr("key")
    case Some(key) => current[key := payload.GetOr("value", Null)]
    case None => current + payload.GetObj("assigns").GetOr(map[])
  }

  function HandleAssigns(s: State, ev: Event): State {
    s.(assigns := MergedAssigns(s.assigns, ev))
  }

  function PresenceAfter(presence: map<string, Object>, ev: Event): map<string, Object> {
    var changed := ev.payload.GetObj("changed").GetOr(map[]);
    var id := match Obj(changed).Get("userId")
              case Some(v) => v.AsStr()
              case None => Obj(changed).GetStr("id");
    if id.None? then presence
    else if ev.event == "LEAVE" then presence - {id.value}
    else presence[id.value := changed]
  }

  function HandlePresence(s: State, ev: Event): State {
    s.(presence := PresenceAfter(s.presence, ev))
  }

  function HandleCommand(s: State, ev: Event, now: int): State {
    match ev.payload.GetStr("userId")
    case None => s
    case Some(id) =>
      if ev.event == "user:evict" || ev.event == "user:remove" then RemoveUser(s, id)
      else if ev.event == "user:get_response" && id !in s.connections then
        var assigns := ev.payload.GetObj("assigns");
        s.(assigns := if assigns.Some? then s.assigns[id := assigns.value] else s.assigns,
           presence := WithPresence(s.presence, id, ev.payload.GetObj("presence")),
           nodeUsers := Tracked(s.nodeUsers, ev.nodeId, id),
           lastSeen := SeenOnce(s.lastSeen, ev.nodeId, now))
      else s
  }

  function HandleCommandSends(s: State, ev: Event, requestId: string): seq<Publication> {
    match ev.payload.GetStr("userId")
    case None => []
    case Some(id) =>
      if id !in s.connections then []
      else if ev.event == "user:evict" || ev.event == "user:remove" then RemoveUserSends(s, id, requestId)
      else if ev.event == "user:get_request" then
        var asked := ev.payload.GetStr("requestId").GetOr(ev.requestId);
        Publish(s, GetResponseEvent(s.name, asked, id, Lookup(s.assigns, id), Lookup(s.presence, id)), "user:get_response")
      else []
  }

  function HandleStateRequestSends(s: State, keys: seq<string>, requestId: string): seq<Publication> {
    if keys == [] then []
    else Publish(s, StateResponseEvent(s.name, requestId, UserEntries(s.assigns, s.presence, keys)), "state:response")
  }

  /** The connected users a received broadcast is for. */
  function Select(ev: Event, connected: set<string>, keys: seq<string>): seq<string> {
    if ev.recipients != [] then Among(ev.recipients, connected)
    else if ev.recipientDescriptor == "ALL_EXCEPT_SENDER" then Without(keys, ev.fromUserId)
    else keys
  }

  /** `keys` lists every member of `users` once. */
  predicate Enumerates(keys: seq<string>, users: set<string>) {
    && (forall i, j :: 0 <= i < j < |keys| ==> keys[i] != keys[j])
    && (forall k <- keys :: k in users)
    && (forall u <- users :: u in keys)
  }

  /** What a handler finds around it: the order in which the connection map is listed, a fresh id, the clock. */
  datatype Env = Env(keys: seq<string>, freshId: string, now: int)

  function Dispatch(s: State, ev: Event, env: Env): State {
    if ev.action == PRESENCE then HandlePresence(s, ev)
    else if ev.action == ASSIGNS then HandleAssigns(s, ev)
    else if ev.action == USER_COMMAND then HandleCommand(s, ev, env.now)
    else if ev.action == STATE_REQUEST then s
    else if ev.action == STATE_RESPONSE then HandleStateResponse(s, ev, env.now)
    else if ev.action == USER_JOINED then HandleUserJoined(s, ev, env.now)
    else if ev.action == USER_LEFT then HandleUserLeft(s, ev)
    else s.(dispatchQueue := Queued(s.dispatchQueue, ev, Select(ev, s.connections, env.keys)))
  }

  function DispatchSends(s: State, ev: Event, env: Env): seq<Publication> {
    if ev.action == USER_COMMAND then HandleCommandSends(s, ev, env.freshId)
    else if ev.action == STATE_REQUEST then HandleStateRequestSends(s, env.keys, env.freshId)
    else []
  }

  /** `handle_pubsub_message`: own messages and those of other channels are dropped. */
  predicate Concerns(s: State, ev: Event) {
    && !(ev.nodeId != "" && ev.nodeId == s.nodeId)
    && ev.channelName == s.name
  }

  function HandleMessage(s: State, data: Value, env: Env): State {
    match Decode(data, env.freshId)
    case None => s
    case Some(ev) => if Concerns(s, ev) then Dispatch(s, ev, env) else s
  }

  function HandleMessageSends(s: State, data: Value, env: Env): seq<Publication> {
    match Decode(data, env.freshId)
    case None => []
    case Some(ev) => if Concerns(s, ev) then DispatchSends(s, ev, env) else []
  }

  // ---------- liveness ----------

  /** A heartbeat of another node counts as seeing it now. */
  function SeenAfter(lastSeen: map<string, int>, nodeId: string, data: Value, env: Env): map<string, int> {
    match Decode(data, env.freshId)
    case None => lastSeen
    case Some(ev) =>
      if ev.action == HEARTBEAT && ev.nodeId != nodeId then lastSeen[ev.nodeId := env.now] else lastSeen
  }

  function HandleHeartbeat(s: State, data: Value, env: Env): State {
    s.(lastSeen := SeenAfter(s.lastSeen, s.nodeId, data, env))
  }

  function StaleNodes(lastSeen: map<string, int>, now: int, timeout: int): set<string> {
    set n | n in lastSeen && now - lastSeen[n] >= timeout
  }

  function UsersOf(nodeUsers: map<string, set<string>>, nodes: set<string>): set<string> {
    set n, u | n in nodes && n in nodeUsers && u in nodeUsers[n] :: u
  }

  /** Forgets some nodes with all their users. */
  function DropNodes(s: State, nodes: set<string>): State {
    var users := UsersOf(s.nodeUsers, nodes);
    s.(nodeUsers := s.nodeUsers - nodes,
       assigns := s.assigns - users,
       presence := s.presence - users,
       lastSeen := s.lastSeen - nodes)
  }

  function CleanupStaleNodes(s: State, now: int, timeout: int): State {
    var stale := StaleNodes(s.lastSeen, now, timeout);
    if stale == {} then s
    else DropNodes(s, stale).(idleChecks := s.idleChecks + 1)
  }

  // ---------- lifetime ----------

  /** A started channel also asks the other nodes for their users (`RequestStateSends`). */
  function Start(s: State): State {
    s.(active := true)
  }

  function Close(s: State): State {
    s.(active := false, connections := {}, assigns := map[], presence := map[], lastSeen := map[], nodeUsers := map[])
  }

  predicate NoUsersAnywhere(s: State) {
    s.connections == {} && forall n <- s.nodeUsers :: s.nodeUsers[n] == {}
  }
}
