/** What survives the wire: the event a receiver reads, in terms of the event published. */
module WireLaws {
  import opened Json
  import opened Wire

  /** The message types that carry the request id. */
  predicate CarriesRequestId(t: MessageType) {
    t == UserMessage || t == UserGetRequest || t == UserGetResponse
  }

  /** The event every receiver reads after `ev` was published as a message of type `t`. */
  function Received(ev: Event, t: MessageType, freshId: string): Event {
    var p := ev.payload;
    var requestId := if CarriesRequestId(t) then ev.requestId else freshId;
    var userId := p.GetOr("userId", Str(""));
    match t
    case UserMessage =>
      var exceptSender := ev.recipientDescriptor == "ALL_EXCEPT_SENDER";
      ev.(action := BROADCAST,
          recipients := if exceptSender then [] else ev.recipients,
          fromUserId := if ev.fromUserId == "" then "CHANNEL" else ev.fromUserId,
          recipientDescriptor := if exceptSender then "ALL_EXCEPT_SENDER"
                                 else if ev.recipients != [] then "" else "ALL_USERS")
    case PresenceUpdate =>
      var changed := p.GetOr("changed", EMPTY_OBJ);
      PlainEvent(PRESENCE, ev.channelName, requestId, "UPDATE",
                 Obj(map["presence" := Arr([]),
                         "changed" := WithUserId(changed, Str(changed.GetStr("userId").GetOr("")))]), ev.nodeId)
    case PresenceRemoved =>
      var who := p.GetOr("changed", Null).GetStr("userId").GetOr("");
      PlainEvent(PRESENCE, ev.channelName, requestId, "LEAVE",
                 Obj(map["presence" := Arr([]), "changed" := Obj(map["userId" := Str(who)])]), ev.nodeId)
    case AssignsUpdate =>
      PlainEvent(ASSIGNS, ev.channelName, requestId, "assigns:update",
                 Obj(map["userId" := userId, "key" := Null, "value" := Null, "assigns" := p.GetOr("assigns", EMPTY_OBJ)]),
                 ev.nodeId)
    case EvictUser =>
      PlainEvent(USER_COMMAND, ev.channelName, requestId, "user:evict",
                 Obj(map["userId" := userId, "reason" := p.GetOr("reason", Str(""))]), ev.nodeId)
    case UserRemove =>
      PlainEvent(USER_COMMAND, ev.channelName, requestId, "user:remove",
                 Obj(map["userId" := userId]), ev.nodeId)
    case UserGetRequest =>
      PlainEvent(USER_COMMAND, ev.channelName, requestId, "user:get_request",
                 Obj(map["userId" := userId, "requestId" := Str(requestId),
                         "fromNode" := p.GetOr("fromNode", Str(ev.nodeId))]), ev.nodeId)
    case UserGetResponse =>
      PlainEvent(USER_COMMAND, ev.channelName, requestId, "user:get_response",
                 Obj(map["userId" := userId, "requestId" := Str(requestId), "assigns" := p.GetOr("assigns", EMPTY_OBJ),
                         "presence" := p.GetOr("presence", EMPTY_OBJ)]), ev.nodeId)
    case UserJoined =>
      PlainEvent(USER_JOINED, ev.channelName, requestId, "user:joined",
                 Obj(map["userId" := userId, "presence" := p.GetOr("presence", EMPTY_OBJ),
                         "assigns" := p.GetOr("assigns", EMPTY_OBJ)]), ev.nodeId)
    case UserLeft =>
      PlainEvent(USER_LEFT, ev.channelName, requestId, "user:left",
                 Obj(map["userId" := userId]), ev.nodeId)
    case StateRequest =>
      PlainEvent(STATE_REQUEST, ev.channelName, requestId, "state:request",
                 Obj(map["fromNode" := p.GetOr("fromNode", Str(ev.nodeId))]), ev.nodeId)
    case StateResponse =>
      PlainEvent(STATE_RESPONSE, ev.channelName, requestId, "state:response",
                 Obj(map["users" := p.GetOr("users", Arr([]))]), ev.nodeId)
    case NodeHeartbeat =>
      PlainEvent(HEARTBEAT, ev.channelName, requestId, "heartbeat",
                 Obj(map["nodeId" := Str(ev.nodeId)]), ev.nodeId)
  }

  lemma TypeNameKnown(t: MessageType)
    ensures TypeNamed(TypeName(t)) == Some(t)
  {}

  /** A member that the header does not have is looked up in the body. */
  lemma HeaderSkipped(h: Object, b: Object, k: string)
    requires k !in h
    ensures Obj(h + b).Get(k) == Obj(b).Get(k)
  {}

  lemma HeaderFound(h: Object, b: Object, k: string)
    requires k in h && k !in b
    ensures Obj(h + b).Get(k) == Some(h[k])
  {}

  predicate NoBodyMember(h: Object) {
    && "userId" !in h && "event" !in h && "payload" !in h && "recipientDescriptor" !in h && "fromUserId" !in h
    && "presence" !in h && "assigns" !in h && "key" !in h && "value" !in h && "reason" !in h && "fromNode" !in h
    && "users" !in h && "nodeId" !in h && "requestId" !in h
  }

  lemma BodyAlone(h: Object, b: Object, t: MessageType, channel: string, requestId: string, nodeId: string)
    requires NoBodyMember(h)
    ensures DecodeBody(Obj(h + b), t, channel, requestId, nodeId) == DecodeBody(Obj(b), t, channel, requestId, nodeId)
    ensures Obj(h + b).GetStr("requestId") == Obj(b).GetStr("requestId")
  {
    HeaderSkipped(h, b, "userId"); HeaderSkipped(h, b, "event"); HeaderSkipped(h, b, "payload");
    HeaderSkipped(h, b, "recipientDescriptor"); HeaderSkipped(h, b, "fromUserId");
    HeaderSkipped(h, b, "presence"); HeaderSkipped(h, b, "assigns"); HeaderSkipped(h, b, "key");
    HeaderSkipped(h, b, "value"); HeaderSkipped(h, b, "reason"); HeaderSkipped(h, b, "fromNode");
    HeaderSkipped(h, b, "users"); HeaderSkipped(h, b, "nodeId"); HeaderSkipped(h, b, "requestId");
  }

  predicate IsHeader(h: Object, t: MessageType, channel: string, nodeId: string) {
    && "protocol" in h && h["protocol"] == Str("pondsocket.distributed")
    && "version" in h && h["version"] == Num(1)
    && "type" in h && h["type"] == Str(TypeName(t))
    && "channelName" in h && h["channelName"] == Str(channel)
    && "sourceNodeId" in h && h["sourceNodeId"] == Str(nodeId)
  }

  predicate NoHeaderMember(b: Object) {
    "protocol" !in b && "version" !in b && "type" !in b && "channelName" !in b && "sourceNodeId" !in b
  }

  lemma EnvelopeOpened(h: Object, b: Object, t: MessageType, channel: string, nodeId: string, freshId: string)
    requires IsHeader(h, t, channel, nodeId) && NoBodyMember(h) && NoHeaderMember(b)
    ensures Decode(Obj(h + b), freshId)
         == DecodeBody(Obj(b), t, channel, Obj(b).GetStr("requestId").GetOr(freshId), nodeId)
  {
    TypeNameKnown(t);
    HeaderFound(h, b, "protocol");
    HeaderFound(h, b, "version");
    HeaderFound(h, b, "type");
    HeaderFound(h, b, "channelName");
    HeaderFound(h, b, "sourceNodeId");
    BodyAlone(h, b, t, channel, Obj(b).GetStr("requestId").GetOr(freshId), nodeId);
  }

  lemma BodyArrives(ev: Event, t: MessageType, freshId: string)
    ensures
      var b := Obj(Body(ev, t));
      DecodeBody(b, t, ev.channelName, b.GetStr("requestId").GetOr(freshId), ev.nodeId) == Some(Received(ev, t, freshId))
  {
    match t
    case UserMessage => UserMessageArrives(ev, freshId);
    case PresenceUpdate => PresenceArrives(ev, t, freshId);
    case PresenceRemoved => PresenceArrives(ev, t, freshId);
    case EvictUser => CommandArrives(ev, t, freshId);
    case UserRemove => CommandArrives(ev, t, freshId);
    case UserGetRequest => CommandArrives(ev, t, freshId);
    case UserGetResponse => CommandArrives(ev, t, freshId);
    case _ => OtherArrives(ev, t, freshId);
  }

  ghost predicate Arrives(ev: Event, t: MessageType, freshId: string) {
    var b := Obj(Body(ev, t));
    DecodeBody(b, t, ev.channelName, b.GetStr("requestId").GetOr(freshId), ev.nodeId) == Some(Received(ev, t, freshId))
  }

  lemma UserMessageArrives(ev: Event, freshId: string)
    ensures Arrives(ev, UserMessage, freshId)
  {
    OnlyStrsOfStrs(ev.recipients);
  }

  lemma PresenceArrives(ev: Event, t: MessageType, freshId: string)
    requires t == PresenceUpdate || t == PresenceRemoved
    ensures Arrives(ev, t, freshId)
  {}

  lemma CommandArrives(ev: Event, t: MessageType, freshId: string)
    requires t == EvictUser || t == UserRemove || t == UserGetRequest || t == UserGetResponse
    ensures Arrives(ev, t, freshId)
  {}

  lemma OtherArrives(ev: Event, t: MessageType, freshId: string)
    requires t == AssignsUpdate || t == UserJoined || t == UserLeft || t == StateRequest || t == StateResponse
             || t == NodeHeartbeat
    ensures Arrives(ev, t, freshId)
  {}

  lemma HeaderIsHeader(ev: Event, t: MessageType, endpoint: string, messageId: string, timestamp: int)
    ensures IsHeader(Header(ev, t, endpoint, messageId, timestamp), t, ev.channelName, ev.nodeId)
  {}

  lemma HeaderHasNoBody(ev: Event, t: MessageType, endpoint: string, messageId: string, timestamp: int)
    ensures NoBodyMember(Header(ev, t, endpoint, messageId, timestamp))
  {}

  lemma BodyHasNoHeader(ev: Event, t: MessageType)
    ensures NoHeaderMember(Body(ev, t))
  {}

  lemma MessageOpened(ev: Event, t: MessageType, endpoint: string, messageId: string, timestamp: int, freshId: string)
    ensures
      var b := Obj(Body(ev, t));
      Decode(Obj(Header(ev, t, endpoint, messageId, timestamp) + Body(ev, t)), freshId)
      == DecodeBody(b, t, ev.channelName, b.GetStr("requestId").GetOr(freshId), ev.nodeId)
  {
    HeaderIsHeader(ev, t, endpoint, messageId, timestamp);
    HeaderHasNoBody(ev, t, endpoint, messageId, timestamp);
    BodyHasNoHeader(ev, t);
    EnvelopeOpened(Header(ev, t, endpoint, messageId, timestamp), Body(ev, t), t, ev.channelName, ev.nodeId, freshId);
  }

  /** Encoding then decoding yields exactly `Received`, whatever the endpoint, the message id and the clock. */
  lemma CodecRoundTrip(ev: Event, subtype: string, endpoint: string, messageId: string, timestamp: int,
                       freshId: string)
    ensures Decode(Encode(ev, subtype, endpoint, messageId, timestamp), freshId)
         == Some(Received(ev, Classify(ev, subtype), freshId))
  {
    MessageOpened(ev, Classify(ev, subtype), endpoint, messageId, timestamp, freshId);
    BodyArrives(ev, Classify(ev, subtype), freshId);
  }

  /** Publishing what was received gives the same event again, except that a message type without a
      request id gets a fresh one. The one exception: a presence update republished under a subtype
      ending in "remove" becomes a leave. */
  lemma NormalForm(ev: Event, t: MessageType, id1: string, subtype: string, id2: string)
    ensures
      var once := Received(ev, t, id1);
      var again := Received(once, Classify(once, subtype), id2);
      again == once.(requestId := if CarriesRequestId(t) then ev.requestId else id2)
      <==> !(t == PresenceUpdate && EndsWith(subtype, "remove"))
  {}

  /** The type a received event is republished as: its own, except for the presence case above. */
  lemma TypeIsStable(ev: Event, t: MessageType, id: string, subtype: string)
    ensures Classify(Received(ev, t, id), subtype)
         == if t == PresenceUpdate && EndsWith(subtype, "remove") then PresenceRemoved else t
  {}

  /** The same for the wire itself: an event that is encoded, read, encoded again and read again is the one read first,
      with the request id kept or made anew, with that one exception. */
  lemma SecondTrip(ev: Event, subtype: string, endpoint: string, messageId: string, timestamp: int, freshId: string,
                   subtype2: string, endpoint2: string, messageId2: string, timestamp2: int, freshId2: string)
    ensures
      var once := Decode(Encode(ev, subtype, endpoint, messageId, timestamp), freshId);
      && once.Some?
      && var t := Classify(ev, subtype);
         var again := Decode(Encode(once.value, subtype2, endpoint2, messageId2, timestamp2), freshId2);
         again == Some(once.value.(requestId := if CarriesRequestId(t) then ev.requestId else freshId2))
         <==> !(t == PresenceUpdate && EndsWith(subtype2, "remove"))
  {
    var t := Classify(ev, subtype);
    CodecRoundTrip(ev, subtype, endpoint, messageId, timestamp, freshId);
    CodecRoundTrip(Received(ev, t, freshId), subtype2, endpoint2, messageId2, timestamp2, freshId2);
    NormalForm(ev, t, freshId, subtype2, freshId2);
  }

  // ---------- what kind of event arrives ----------

  lemma SuffixMeans(s: string, suffix: string)
    ensures EndsWith(s, suffix) <==> exists front :: s == front + suffix
  {
    if EndsWith(s, suffix) { assert s == s[..|s| - |suffix|] + suffix; }
  }

  ghost predicate LeavesPresence(ev: Event, subtype: string) {
    ev.event == "LEAVE" || exists front :: subtype == front + "remove"
  }

  /** An event arrives as one of its kind: one of an unknown kind as a broadcast, an unknown command as an eviction, and a
      presence change as a leave or an update. */
  lemma KindTravels(ev: Event, subtype: string, endpoint: string, messageId: string, timestamp: int, freshId: string)
    ensures
      var read := Decode(Encode(ev, subtype, endpoint, messageId, timestamp), freshId);
      && read.Some? && read.value.channelName == ev.channelName && read.value.nodeId == ev.nodeId
      && read.value.action == (if ev.action.OTHER? then BROADCAST else ev.action)
      && (ev.action == USER_COMMAND ==>
            read.value.event == if ev.event in {"user:remove", "user:get_request", "user:get_response"} then ev.event
                                else "user:evict")
      && (ev.action == PRESENCE ==> read.value.event == if LeavesPresence(ev, subtype) then "LEAVE" else "UPDATE")
      && (ev.action == BROADCAST ==> read.value.event == ev.event && read.value.payload == ev.payload)
  {
    CodecRoundTrip(ev, subtype, endpoint, messageId, timestamp, freshId);
    SuffixMeans(subtype, "remove");
    KindReceived(ev, subtype, freshId);
  }

  lemma KindReceived(ev: Event, subtype: string, freshId: string)
    ensures
      var read := Received(ev, Classify(ev, subtype), freshId);
      && read.channelName == ev.channelName && read.nodeId == ev.nodeId
      && read.action == (if ev.action.OTHER? then BROADCAST else ev.action)
      && (ev.action == USER_COMMAND ==>
            read.event == if ev.event in {"user:remove", "user:get_request", "user:get_response"} then ev.event
                          else "user:evict")
      && (ev.action == PRESENCE ==>
            read.event == if EndsWith(subtype, "remove") || ev.event == "LEAVE" then "LEAVE" else "UPDATE")
      && (ev.action == BROADCAST ==> read.event == ev.event && read.payload == ev.payload)
  {}

  /** What every message says about itself, for programs that read it otherwise. */
  lemma EnvelopeTells(ev: Event, subtype: string, endpoint: string, messageId: string, timestamp: int)
    ensures
      var v := Encode(ev, subtype, endpoint, messageId, timestamp);
      && IsEnvelope(v) && HasType(v, Classify(ev, subtype))
      && v.GetStr("channelName") == Some(ev.channelName) && v.GetStr("sourceNodeId") == Some(ev.nodeId)
      && v.GetStr("messageId") == Some(messageId) && v.GetStr("endpointName") == Some(endpoint)
      && v.Get("timestamp") == Some(Num(timestamp))
  {
    var t := Classify(ev, subtype);
    var h, b := Header(ev, t, endpoint, messageId, timestamp), Body(ev, t);
    HeaderIsHeader(ev, t, endpoint, messageId, timestamp);
    BodyHasNoHeader(ev, t);
    BodyHasNoMetadata(ev, t);
    HeaderMetadata(ev, t, endpoint, messageId, timestamp);
    HeaderFound(h, b, "protocol");
    HeaderFound(h, b, "version");
    HeaderFound(h, b, "type");
    HeaderFound(h, b, "channelName");
    HeaderFound(h, b, "sourceNodeId");
    HeaderFound(h, b, "messageId");
    HeaderFound(h, b, "endpointName");
    HeaderFound(h, b, "timestamp");
  }

  lemma BodyHasNoMetadata(ev: Event, t: MessageType)
    ensures "messageId" !in Body(ev, t) && "endpointName" !in Body(ev, t) && "timestamp" !in Body(ev, t)
  {}

  lemma HeaderMetadata(ev: Event, t: MessageType, endpoint: string, messageId: string, timestamp: int)
    ensures
      var h := Header(ev, t, endpoint, messageId, timestamp);
      && "messageId" in h && h["messageId"] == Str(messageId) && "endpointName" in h && h["endpointName"] == Str(endpoint)
      && "timestamp" in h && h["timestamp"] == Num(timestamp)
  {}

  // ---------- messages of other programs ----------

  /** A message of this protocol and version with a type that it knows and all that every type needs. */
  predicate IsEnvelope(v: Value) {
    && v.GetStr("protocol") == Some("pondsocket.distributed") && v.Get("version") == Some(Num(1))
    && v.GetStr("channelName").Some? && v.GetStr("sourceNodeId").Some?
  }

  predicate HasType(v: Value, t: MessageType) {
    v.GetStr("type") == Some(TypeName(t))
  }

  /** A message is read if and only if it is of this protocol, of a known type, and a user message names its event. */
  lemma ReadExactly(v: Value, freshId: string)
    ensures Decode(v, freshId).Some?
       <==> IsEnvelope(v) && exists t :: HasType(v, t) && (t == UserMessage ==> v.GetStr("event").Some?)
  {
    if IsEnvelope(v) && exists t :: HasType(v, t) && (t == UserMessage ==> v.GetStr("event").Some?) {
      var t :| HasType(v, t) && (t == UserMessage ==> v.GetStr("event").Some?);
      TypeNameKnown(t);
    } else if IsEnvelope(v) && v.GetStr("type").Some? && TypeNamed(v.GetStr("type").value).Some? {
      assert HasType(v, TypeNamed(v.GetStr("type").value).value);
    }
  }

  /** What a member stands for when a message leaves it out. */
  const DEFAULTS: Object := map[
    "userId" := Str(""), "payload" := EMPTY_OBJ, "recipientDescriptor" := Null, "fromUserId" := Str("CHANNEL"),
    "presence" := EMPTY_OBJ, "assigns" := EMPTY_OBJ, "key" := Null, "value" := Null, "reason" := Str(""),
    "fromNode" := Str(""), "users" := Arr([]), "nodeId" := Str("")]

  predicate Holds(d: Object, k: string, v: Value) {
    k in d && d[k] == v
  }

  predicate AreDefaults(d: Object) {
    && Holds(d, "userId", Str("")) && Holds(d, "payload", EMPTY_OBJ) && Holds(d, "recipientDescriptor", Null)
    && Holds(d, "fromUserId", Str("CHANNEL")) && Holds(d, "presence", EMPTY_OBJ) && Holds(d, "assigns", EMPTY_OBJ)
    && Holds(d, "key", Null) && Holds(d, "value", Null) && Holds(d, "reason", Str("")) && Holds(d, "fromNode", Str(""))
    && Holds(d, "users", Arr([])) && Holds(d, "nodeId", Str(""))
    && NoHeaderMember(d) && "requestId" !in d && "event" !in d
  }

  /** Two messages in which a reader finds the same, member by member. */
  predicate SameMember(v: Value, w: Value, k: string, default: Value) {
    v.GetOr(k, default) == w.GetOr(k, default)
  }

  predicate SameBody(v: Value, w: Value) {
    && SameMember(v, w, "userId", Str("")) && SameMember(v, w, "payload", EMPTY_OBJ)
    && SameMember(v, w, "recipientDescriptor", Null)
    && v.GetStr("fromUserId").GetOr("CHANNEL") == w.GetStr("fromUserId").GetOr("CHANNEL")
    && SameMember(v, w, "presence", EMPTY_OBJ) && SameMember(v, w, "assigns", EMPTY_OBJ)
    && SameMember(v, w, "key", Null) && SameMember(v, w, "value", Null) && SameMember(v, w, "reason", Str(""))
    && SameMember(v, w, "fromNode", Str("")) && SameMember(v, w, "users", Arr([])) && SameMember(v, w, "nodeId", Str(""))
    && v.GetStr("event") == w.GetStr("event")
  }

  lemma SameBodyRead(v: Value, w: Value, t: MessageType, channel: string, requestId: string, nodeId: string)
    requires SameBody(v, w)
    ensures DecodeBody(v, t, channel, requestId, nodeId) == DecodeBody(w, t, channel, requestId, nodeId)
  {}

  lemma FilledIn(d: Object, f: Object, k: string, default: Value)
    requires Holds(d, k, default)
    ensures SameMember(Obj(d + f), Obj(f), k, default)
  {}

  lemma LeftOut(d: Object, f: Object, k: string)
    requires k !in d
    ensures Obj(d + f).Get(k) == Obj(f).Get(k)
  {}

  lemma FilledBody(d: Object, f: Object)
    requires AreDefaults(d)
    ensures SameBody(Obj(d + f), Obj(f))
  {
    FilledIn(d, f, "userId", Str("")); FilledIn(d, f, "payload", EMPTY_OBJ); FilledIn(d, f, "recipientDescriptor", Null);
    FilledIn(d, f, "fromUserId", Str("CHANNEL")); FilledIn(d, f, "presence", EMPTY_OBJ);
    FilledIn(d, f, "assigns", EMPTY_OBJ); FilledIn(d, f, "key", Null); FilledIn(d, f, "value", Null);
    FilledIn(d, f, "reason", Str("")); FilledIn(d, f, "fromNode", Str("")); FilledIn(d, f, "users", Arr([]));
    FilledIn(d, f, "nodeId", Str("")); LeftOut(d, f, "event");
  }

  lemma FilledMessage(d: Object, f: Object, freshId: string)
    requires AreDefaults(d)
    ensures Decode(Obj(d + f), freshId) == Decode(Obj(f), freshId)
  {
    var v, w := Obj(d + f), Obj(f);
    LeftOut(d, f, "protocol"); LeftOut(d, f, "version"); LeftOut(d, f, "type"); LeftOut(d, f, "channelName");
    LeftOut(d, f, "sourceNodeId"); LeftOut(d, f, "requestId");
    FilledBody(d, f);
    SameMessage(v, w, freshId);
  }

  predicate SameEnvelope(v: Value, w: Value) {
    && v.Get("protocol") == w.Get("protocol") && v.Get("version") == w.Get("version") && v.Get("type") == w.Get("type")
    && v.Get("channelName") == w.Get("channelName") && v.Get("sourceNodeId") == w.Get("sourceNodeId")
    && v.Get("requestId") == w.Get("requestId")
  }

  lemma SameMessage(v: Value, w: Value, freshId: string)
    requires SameEnvelope(v, w) && SameBody(v, w)
    ensures Decode(v, freshId) == Decode(w, freshId)
  {
    if Decode(v, freshId).Some? || Decode(w, freshId).Some? {
      SameBodyRead(v, w, TypeNamed(v.GetStr("type").value).value, v.GetStr("channelName").value,
                   v.GetStr("requestId").GetOr(freshId), v.GetStr("sourceNodeId").value);
    }
  }

  lemma DefaultTexts()
    ensures Holds(DEFAULTS, "userId", Str("")) && Holds(DEFAULTS, "reason", Str("")) && Holds(DEFAULTS, "fromNode", Str(""))
    ensures Holds(DEFAULTS, "nodeId", Str("")) && Holds(DEFAULTS, "fromUserId", Str("CHANNEL"))
  {}

  lemma DefaultValues()
    ensures Holds(DEFAULTS, "payload", EMPTY_OBJ) && Holds(DEFAULTS, "presence", EMPTY_OBJ)
    ensures Holds(DEFAULTS, "assigns", EMPTY_OBJ) && Holds(DEFAULTS, "users", Arr([]))
    ensures Holds(DEFAULTS, "recipientDescriptor", Null) && Holds(DEFAULTS, "key", Null) && Holds(DEFAULTS, "value", Null)
  {}

  lemma NoOtherDefaults()
    ensures NoHeaderMember(DEFAULTS) && "requestId" !in DEFAULTS && "event" !in DEFAULTS
  {}

  lemma TheDefaults()
    ensures AreDefaults(DEFAULTS)
  {
    DefaultTexts();
    DefaultValues();
    NoOtherDefaults();
  }

  /** Writing the defaults in where members are missing does not change what is read. */
  lemma MissingMembers(f: Object, freshId: string)
    ensures Decode(Obj(DEFAULTS + f), freshId) == Decode(Obj(f), freshId)
  {
    TheDefaults();
    FilledMessage(DEFAULTS, f, freshId);
  }
}
