/** The distributed wire protocol: how a channel event becomes a protocol message
    and how a message becomes an event again on another node. */
module Wire {
  import opened Json

  /** The `action` tag of an event; any other text is kept as it is. */
  datatype Action =
    | BROADCAST | PRESENCE | ASSIGNS | USER_COMMAND | STATE_REQUEST | STATE_RESPONSE | USER_JOINED | USER_LEFT
    | HEARTBEAT | OTHER(text: string)

  datatype Event = Event(
    action: Action,
    channelName: string,
    requestId: string,
    payload: Value,
    event: string,
    nodeId: string,
    recipients: seq<string>,
    fromUserId: string,
    recipientDescriptor: string)

  function NewEvent(action: Action, channel: string, requestId: string, event: string, payload: Value): Event {
    Event(action, channel, requestId, payload, event, "", [], "", "")
  }

  predicate EndsWith(s: string, suffix: string) {
    |suffix| <= |s| && s[|s| - |suffix|..] == suffix
  }

  datatype MessageType =
    | UserMessage | PresenceUpdate | PresenceRemoved | AssignsUpdate | EvictUser | UserRemove
    | UserGetRequest | UserGetResponse | UserJoined | UserLeft | StateRequest | StateResponse | NodeHeartbeat

  function TypeName(t: MessageType): string {
    match t
    case UserMessage => "USER_MESSAGE"
    case PresenceUpdate => "PRESENCE_UPDATE"
    case PresenceRemoved => "PRESENCE_REMOVED"
    case AssignsUpdate => "ASSIGNS_UPDATE"
    case EvictUser => "EVICT_USER"
    case UserRemove => "USER_REMOVE"
    case UserGetRequest => "USER_GET_REQUEST"
    case UserGetResponse => "USER_GET_RESPONSE"
    case UserJoined => "USER_JOINED"
    case UserLeft => "USER_LEFT"
    case StateRequest => "STATE_REQUEST"
    case StateResponse => "STATE_RESPONSE"
    case NodeHeartbeat => "NODE_HEARTBEAT"
  }

  /** The type tag of a received message; none for a tag the protocol does not know. */
  function TypeNamed(name: string): (t: Option<MessageType>)
    ensures t.Some? ==> TypeName(t.value) == name
  {
    if name == "USER_MESSAGE" then Some(UserMessage)
    else if name == "PRESENCE_UPDATE" then Some(PresenceUpdate)
    else if name == "PRESENCE_REMOVED" then Some(PresenceRemoved)
    else if name == "ASSIGNS_UPDATE" then Some(AssignsUpdate)
    else if name == "EVICT_USER" then Some(EvictUser)
    else if name == "USER_REMOVE" then Some(UserRemove)
    else if name == "USER_GET_REQUEST" then Some(UserGetRequest)
    else if name == "USER_GET_RESPONSE" then Some(UserGetResponse)
    else if name == "USER_JOINED" then Some(UserJoined)
    else if name == "USER_LEFT" then Some(UserLeft)
    else if name == "STATE_REQUEST" then Some(StateRequest)
    else if name == "STATE_RESPONSE" then Some(StateResponse)
    else if name == "NODE_HEARTBEAT" then Some(NodeHeartbeat)
    else None
  }

  /** The message type an event is published as. */
  function Classify(ev: Event, subtype: string): MessageType {
    if ev.action == BROADCAST then UserMessage
    else if ev.action == PRESENCE then
      if EndsWith(subtype, "remove") || ev.event == "LEAVE" then PresenceRemoved else PresenceUpdate
    else if ev.action == ASSIGNS then AssignsUpdate
    else if ev.action == USER_COMMAND then
      if ev.event == "user:remove" then UserRemove
      else if ev.event == "user:get_request" then UserGetRequest
      else if ev.event == "user:get_response" then UserGetResponse
      else EvictUser
    else if ev.action == STATE_REQUEST then StateRequest
    else if ev.action == STATE_RESPONSE then StateResponse
    else if ev.action == USER_JOINED then UserJoined
    else if ev.action == USER_LEFT then UserLeft
    else if ev.action == HEARTBEAT then NodeHeartbeat
    else UserMessage
  }

  /** The members particular to one message type. */
  function Body(ev: Event, t: MessageType): Object {
    var p := ev.payload;
    match t
    case UserMessage =>
      map[
        "fromUserId" := Str(if ev.fromUserId == "" then "CHANNEL" else ev.fromUserId),
        "event" := Str(ev.event),
        "payload" := p,
        "requestId" := Str(ev.requestId),
        "recipientDescriptor" :=
          if ev.recipientDescriptor == "ALL_EXCEPT_SENDER" then Str("ALL_EXCEPT_SENDER")
          else if ev.recipients != [] then Arr(Strs(ev.recipients))
          else Str("ALL_USERS")]
    case PresenceUpdate =>
      var changed := p.GetOr("changed", EMPTY_OBJ);
      map["userId" := Str(changed.GetStr("userId").GetOr("")), "presence" := changed]
    case PresenceRemoved =>
      map["userId" := Str(p.GetOr("changed", Null).GetStr("userId").GetOr(""))]
    case AssignsUpdate =>
      map["userId" := p.GetOr("userId", Str("")), "assigns" := p.GetOr("assigns", EMPTY_OBJ)]
    case EvictUser =>
      map["userId" := p.GetOr("userId", Str("")), "reason" := p.GetOr("reason", Str(""))]
    case UserRemove =>
      map["userId" := p.GetOr("userId", Str(""))]
    case UserGetRequest =>
      map[
        "userId" := p.GetOr("userId", Str("")),
        "requestId" := Str(ev.requestId),
        "fromNode" := p.GetOr("fromNode", Str(ev.nodeId))]
    case UserGetResponse =>
      map[
        "userId" := p.GetOr("userId", Str("")),
        "requestId" := Str(ev.requestId),
        "assigns" := p.GetOr("assigns", EMPTY_OBJ),
        "presence" := p.GetOr("presence", EMPTY_OBJ)]
    case UserJoined =>
      map[
        "userId" := p.GetOr("userId", Str("")),
        "presence" := p.GetOr("presence", EMPTY_OBJ),
        "assigns" := p.GetOr("assigns", EMPTY_OBJ)]
    case UserLeft =>
      map["userId" := p.GetOr("userId", Str(""))]
    case StateRequest =>
      map["fromNode" := p.GetOr("fromNode", Str(ev.nodeId))]
    case StateResponse =>
      map["users" := p.GetOr("users", Arr([]))]
    case NodeHeartbeat =>
      map["nodeId" := Str(ev.nodeId)]
  }

  function Header(ev: Event, t: MessageType, endpoint: string, messageId: string, timestamp: int): Object {
    map[
      "protocol" := Str("pondsocket.distributed"),
      "version" := Num(1),
      "type" := Str(TypeName(t)),
      "messageId" := Str(messageId),
      "sourceNodeId" := Str(ev.nodeId),
      "endpointName" := Str(endpoint),
      "channelName" := Str(ev.channelName),
      "timestamp" := Num(timestamp)]
  }

  /** `distributed_event_to_bytes`, up to JSON text; `messageId` and `timestamp` stand for
      the fresh id and the clock. */
  function Encode(ev: Event, subtype: string, endpoint: string, messageId: string, timestamp: int): Value {
    var t := Classify(ev, subtype);
    Obj(Header(ev, t, endpoint, messageId, timestamp) + Body(ev, t))
  }

  function PlainEvent(action: Action, channel: string, requestId: string, event: string, payload: Value,
                      nodeId: string): Event {
    Event(action, channel, requestId, payload, event, nodeId, [], "", "")
  }

  /** `distributed_bytes_to_event`; `freshId` is used when the message carries no request id. */
  function Decode(v: Value, freshId: string): Option<Event> {
    if v.GetStr("protocol") != Some("pondsocket.distributed") then None
    else if v.Get("version") != Some(Num(1)) then None
    else if v.GetStr("type").None? || v.GetStr("channelName").None? || v.GetStr("sourceNodeId").None? then None
    else
      match TypeNamed(v.GetStr("type").value)
      case None => None
      case Some(t) =>
        DecodeBody(v, t, v.GetStr("channelName").value, v.GetStr("requestId").GetOr(freshId),
                   v.GetStr("sourceNodeId").value)
  }

  function DecodeBody(v: Value, t: MessageType, channel: string, requestId: string, nodeId: string): Option<Event> {
    var userId := v.GetOr("userId", Str(""));
    match t
    case UserMessage =>
      if v.GetStr("event").None? then None
      else
        var descriptor := v.GetOr("recipientDescriptor", Null);
        Some(Event(
               BROADCAST, channel, requestId, v.GetOr("payload", EMPTY_OBJ), v.GetStr("event").value, nodeId,
               OnlyStrs(descriptor.AsArr().GetOr([])),
               v.GetStr("fromUserId").GetOr("CHANNEL"),
               descriptor.AsStr().GetOr("")))
    case PresenceUpdate =>
      Some(PlainEvent(PRESENCE, channel, requestId, "UPDATE",
                      Obj(map["presence" := Arr([]),
                              "changed" := WithUserId(v.GetOr("presence", EMPTY_OBJ), userId)]), nodeId))
    case PresenceRemoved =>
      Some(PlainEvent(PRESENCE, channel, requestId, "LEAVE",
                      Obj(map["presence" := Arr([]), "changed" := Obj(map["userId" := userId])]), nodeId))
    case AssignsUpdate =>
      Some(PlainEvent(ASSIGNS, channel, requestId, "assigns:update",
                      Obj(map["userId" := userId, "key" := v.GetOr("key", Null), "value" := v.GetOr("value", Null),
                              "assigns" := v.GetOr("assigns", EMPTY_OBJ)]), nodeId))
    case EvictUser =>
      Some(PlainEvent(USER_COMMAND, channel, requestId, "user:evict",
                      Obj(map["userId" := userId, "reason" := v.GetOr("reason", Str(""))]), nodeId))
    case UserRemove =>
      Some(PlainEvent(USER_COMMAND, channel, requestId, "user:remove", Obj(map["userId" := userId]), nodeId))
    case UserGetRequest =>
      Some(PlainEvent(USER_COMMAND, channel, requestId, "user:get_request",
                      Obj(map["userId" := userId, "requestId" := Str(requestId),
                              "fromNode" := v.GetOr("fromNode", Str(""))]), nodeId))
    case UserGetResponse =>
      Some(PlainEvent(USER_COMMAND, channel, requestId, "user:get_response",
                      Obj(map["userId" := userId, "requestId" := Str(requestId),
                              "assigns" := v.GetOr("assigns", EMPTY_OBJ),
                              "presence" := v.GetOr("presence", EMPTY_OBJ)]), nodeId))
    case UserJoined =>
      Some(PlainEvent(USER_JOINED, channel, requestId, "user:joined",
                      Obj(map["userId" := userId, "presence" := v.GetOr("presence", EMPTY_OBJ),
                              "assigns" := v.GetOr("assigns", EMPTY_OBJ)]), nodeId))
    case UserLeft =>
      Some(PlainEvent(USER_LEFT, channel, requestId, "user:left", Obj(map["userId" := userId]), nodeId))
    case StateRequest =>
      Some(PlainEvent(STATE_REQUEST, channel, requestId, "state:request",
                      Obj(map["fromNode" := v.GetOr("fromNode", Str(""))]), nodeId))
    case StateResponse =>
      Some(PlainEvent(STATE_RESPONSE, channel, requestId, "state:response",
                      Obj(map["users" := v.GetOr("users", Arr([]))]), nodeId))
    case NodeHeartbeat =>
      Some(PlainEvent(HEARTBEAT, channel, requestId, "heartbeat",
                      Obj(map["nodeId" := v.GetOr("nodeId", Str(""))]), nodeId))
  }

  /** `entry("userId").or_insert(userId)` on an object; anything else is left alone. */
  function WithUserId(changed: Value, userId: Value): Value {
    if changed.Obj? && "userId" !in changed.fields then Obj(changed.fields["userId" := userId]) else changed
  }
}
