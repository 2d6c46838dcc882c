/** The steps one node takes on its copy of a channel, and what it hands to the pub/sub on the way. */
module NodeSteps {
  import opened Json
  import opened Wire
  import opened ChannelSpec
  import WireLaws

  datatype Op =
    | Add(id: string, assigns: Object)
    | Remove(id: string)
    | SetAssign(id: string, key: string, value: Value)
    | Track(id: string, data: Value)
    | Update(id: string, data: Value)
    | Untrack(id: string)
    | Evict(id: string, reason: string)
    | AskForUser(id: string)
    | Say(cast: Cast, event: string, payload: Value)
    | Receive(data: Value)
    | Heartbeat(data: Value)
    | Sweep(timeout: int)
    | Shut

  function Step(s: State, op: Op, env: Env): State {
    match op
    case Add(id, assigns) => AddUser(s, id, assigns).0
    case Remove(id) => RemoveUser(s, id)
    case SetAssign(id, key, value) => UpdateAssign(s, id, key, value).0
    case Track(id, data) => TrackPresence(s, id, data).0
    case Update(id, data) => UpdatePresence(s, id, data).0
    case Untrack(id) => UntrackPresence(s, id)
    case Evict(id, reason) => RemoveUser(s, id)
    case AskForUser(id) => s
    case Say(cast, event, payload) =>
      SendEvent(s, CastEvent(s, cast, event, payload, env.freshId), CastRecipients(cast, env.keys))
    case Receive(data) => HandleMessage(s, data, env)
    case Heartbeat(data) => HandleHeartbeat(s, data, env)
    case Sweep(timeout) => CleanupStaleNodes(s, env.now, timeout)
    case Shut => Close(s)
  }

  function Sends(s: State, op: Op, env: Env): seq<Publication> {
    match op
    case Add(id, assigns) => AddUserSends(s, id, assigns, env.freshId)
    case Remove(id) => RemoveUserSends(s, id, env.freshId)
    case SetAssign(id, key, value) => UpdateAssignSends(s, id, key, value, env.freshId)
    case Track(id, data) => TrackPresenceSends(s, id, data, env.freshId)
    case Update(id, data) => UpdatePresenceSends(s, id, data, env.freshId)
    case Untrack(id) => UntrackPresenceSends(s, id, env.freshId)
    case Evict(id, reason) => EvictUserSends(s, id, reason, env.freshId)
    case AskForUser(id) => RequestUserSends(s, id, env.freshId)
    case Say(cast, event, payload) =>
      SendEventSends(s, CastEvent(s, cast, event, payload, env.freshId), CastRecipients(cast, env.keys))
    case Receive(data) => HandleMessageSends(s, data, env)
    case Heartbeat(data) => []
    case Sweep(timeout) => []
    case Shut => []
  }

  /** A publication as any receiver reads it. */
  function ReadAs(p: Publication, freshId: string): Event {
    WireLaws.Received(p.ev, Classify(p.ev, p.subtype), freshId)
  }

  /** The bytes of a publication; the endpoint, the message id and the clock vary. */
  function Bytes(p: Publication, endpoint: string, messageId: string, timestamp: int): Value {
    Encode(p.ev, p.subtype, endpoint, messageId, timestamp)
  }

  lemma BytesRead(p: Publication, endpoint: string, messageId: string, timestamp: int, freshId: string)
    ensures Decode(Bytes(p, endpoint, messageId, timestamp), freshId) == Some(ReadAs(p, freshId))
  {
    WireLaws.CodecRoundTrip(p.ev, p.subtype, endpoint, messageId, timestamp, freshId);
  }

  /** What a node makes of a message that reads as this event, and publishes then. */
  lemma HandlesRead(m: State, data: Value, ev: Event, env: Env)
    requires Decode(data, env.freshId) == Some(ev) && Concerns(m, ev)
    ensures Step(m, Receive(data), env) == Dispatch(m, ev, env) && Sends(m, Receive(data), env) == DispatchSends(m, ev, env)
  {}

  predicate SameIdentity(s: State, t: State) {
    t.nodeId == s.nodeId && t.name == s.name && t.distributed == s.distributed
  }

  lemma {:induction false} LearnIdentity(s: State, users: seq<Value>, node: string, now: int)
    ensures SameIdentity(s, LearnUsers(s, users, node, now))
    ensures LearnUsers(s, users, node, now).active == s.active
    ensures LearnUsers(s, users, node, now).connections == s.connections
    decreases |users|
  {
    if users != [] {
      var s1 := match users[0].GetStr("id") case None => s case Some(id) => LearnUser(s, users[0], id, node, now);
      LearnIdentity(s1, users[1..], node, now);
    }
  }

  lemma CommandIdentity(s: State, ev: Event, now: int)
    ensures SameIdentity(s, HandleCommand(s, ev, now)) && HandleCommand(s, ev, now).active == s.active
  {}

  lemma MembersIdentity(s: State, ev: Event, env: Env)
    requires ev.action == STATE_RESPONSE || ev.action == USER_JOINED || ev.action == USER_LEFT
    ensures SameIdentity(s, Dispatch(s, ev, env)) && Dispatch(s, ev, env).active == s.active
  {
    var users := ev.payload.Get("users");
    if users.Some? && users.value.Arr? { LearnIdentity(s, users.value.items, ev.nodeId, env.now); }
  }

  lemma DispatchIdentity(s: State, ev: Event, env: Env)
    ensures SameIdentity(s, Dispatch(s, ev, env)) && Dispatch(s, ev, env).active == s.active
  {
    if ev.action == USER_COMMAND {
      CommandIdentity(s, ev, env.now);
    } else if ev.action == STATE_RESPONSE || ev.action == USER_JOINED || ev.action == USER_LEFT {
      MembersIdentity(s, ev, env);
    }
  }

  lemma StepIdentity(s: State, op: Op, env: Env)
    ensures SameIdentity(s, Step(s, op, env))
    ensures !op.Shut? ==> Step(s, op, env).active == s.active
  {
    if op.Receive? {
      if Decode(op.data, env.freshId).Some? {
        DispatchIdentity(s, Decode(op.data, env.freshId).value, env);
      }
    } else if !op.Sweep? {
      LocalIdentity(s, op, env);
    }
  }

  lemma LocalIdentity(s: State, op: Op, env: Env)
    requires !op.Receive? && !op.Sweep?
    ensures SameIdentity(s, Step(s, op, env))
    ensures !op.Shut? ==> Step(s, op, env).active == s.active
  {
    if op.Add? || op.Remove? || op.SetAssign? || op.Evict? { UserIdentity(s, op, env); }
  }

  lemma UserIdentity(s: State, op: Op, env: Env)
    requires op.Add? || op.Remove? || op.SetAssign? || op.Evict?
    ensures SameIdentity(s, Step(s, op, env)) && Step(s, op, env).active == s.active
  {}

  lemma DispatchSubtypes(s: State, ev: Event, env: Env)
    ensures forall p <- DispatchSends(s, ev, env) :: !EndsWith(p.subtype, "remove")
  {}

  lemma SubtypesOfSteps(s: State, op: Op, env: Env)
    ensures forall p <- Sends(s, op, env) :: !EndsWith(p.subtype, "remove")
  {
    if op.Receive? && Decode(op.data, env.freshId).Some? { DispatchSubtypes(s, Decode(op.data, env.freshId).value, env); }
  }

  /** No node ever publishes under a subtype that ends in "remove", so what it publishes reads the same after a second
      trip, up to a fresh request id. */
  lemma PublishedReadsTheSame(s: State, op: Op, env: Env, p: Publication, freshId: string, freshId2: string)
    requires p in Sends(s, op, env)
    ensures !EndsWith(p.subtype, "remove")
    ensures
      var once := Decode(Bytes(p, "", "", 0), freshId);
      && once.Some?
      && Decode(Encode(once.value, p.subtype, "", "", 0), freshId2)
         == Some(once.value.(requestId := if WireLaws.CarriesRequestId(Classify(p.ev, p.subtype)) then p.ev.requestId
                                          else freshId2))
  {
    assert !EndsWith(p.subtype, "remove") by { SubtypesOfSteps(s, op, env); }
    WireLaws.SecondTrip(p.ev, p.subtype, "", "", 0, freshId, p.subtype, "", "", 0, freshId2);
  }
}
