/** A channel of the JavaScript client: joining, with its time limit and its waiting for a connection, and the
    queue of messages. `timers` are the time limits that the runtime has still to call, by handle, with the
    request id each was made for. */
module JsChannelSpec {
  import opened Json

  datatype Connection = Disconnected | Connecting | Connected
  datatype ChannelState = Idle | Joining | Joined | Stalled | Declined | Closed
  datatype Action = JoinChannel | LeaveChannel | Broadcast

  datatype Message = Message(action: Action, event: string, payload: Object, requestId: string)

  datatype State = State(
    joinParams: Object,
    maxQueueSize: nat,
    connection: Connection,
    sent: seq<Message>,                 // what the publisher passed on
    state: ChannelState,
    queue: seq<Message>,
    pending: Option<string>,            // the id of the join request under way
    timeout: Option<nat>,               // the handle of its time limit
    timers: map<nat, string>,
    nextTimer: nat,
    waiting: bool,                      // a join waits for the connection
    subscribed: bool,                   // the channel follows the connection, from its first acknowledgement on
    lastError: Option<Object>,
    errors: seq<Object>)                // errors handed to observers

  function Fresh(joinParams: Object, maxQueueSize: nat, connection: Connection): State {
    State(joinParams, maxQueueSize, connection, [], Idle, [], None, None, map[], 0, false, false, None, [])
  }

  /** The publisher passes a message on only while connected. */
  function Published(s: State, messages: seq<Message>): seq<Message> {
    if s.connection == Connected then s.sent + messages else s.sent
  }

  function ClearTimeout(s: State): State {
    match s.timeout
    case None => s
    case Some(t) => s.(timers := s.timers - {t}, timeout := None)
  }

  function SendJoinRequest(s: State, requestId: string): State {
    var c := ClearTimeout(s);
    c.(pending := Some(requestId),
       sent := Published(s, [Message(JoinChannel, "JOIN_CHANNEL", s.joinParams, requestId)]),
       timers := c.timers[s.nextTimer := requestId],
       timeout := Some(s.nextTimer),
       nextTimer := s.nextTimer + 1)
  }

  predicate AwaitsJoin(s: State) {
    s.state == Joining || s.state == Stalled
  }

  /** An answer to a request that a later one has taken the place of; an empty id is no id. */
  predicate Superseded(s: State, requestId: string) {
    requestId != "" && s.pending.Some? && s.pending.value != "" && requestId != s.pending.value
  }

  function Acknowledge(s: State, requestId: string): State {
    if !AwaitsJoin(s) || Superseded(s, requestId) then s
    else
      ClearTimeout(s).(pending := None, lastError := None, state := Joined, subscribed := true,
                       sent := Published(s, s.queue), queue := [])
  }

  function Decline(s: State, payload: Object, requestId: string): State {
    if !AwaitsJoin(s) then s.(errors := s.errors + [payload])
    else if Superseded(s, requestId) then s
    else
      ClearTimeout(s).(pending := None, lastError := Some(payload), state := Declined, queue := [],
                       errors := s.errors + [payload])
  }

  function Join(s: State, requestId: string): State {
    if s.state == Joined || s.state == Joining then s
    else
      var j := s.(lastError := None, state := Joining);
      if s.connection == Connected then SendJoinRequest(j, requestId) else j.(waiting := true)
  }

  function Leave(s: State, requestId: string): State {
    ClearTimeout(s).(
      sent := if s.state == Joined then Published(s, [Message(LeaveChannel, "LEAVE_CHANNEL", map[], requestId)]) else s.sent,
      waiting := false, pending := None, queue := [], state := Closed, subscribed := false)
  }

  datatype Outcome = Accepted | Refused

  function Publish(s: State, m: Message): (State, Outcome) {
    if s.state == Joined then (s.(sent := Published(s, [m])), Accepted)
    else if s.state == Declined || s.state == Closed then (s, Refused)
    else
      (s.(queue := (if |s.queue| >= s.maxQueueSize && s.queue != [] then s.queue[1..] else s.queue) + [m]), Accepted)
  }

  /** The channel follows a change of the connection. */
  function Follow(s: State, requestId: string): State {
    if !s.subscribed then s
    else if s.connection == Connected && s.state == Stalled then SendJoinRequest(s, requestId)
    else if s.connection != Connected && s.state == Joined then ClearTimeout(s).(pending := None, state := Stalled)
    else s
  }

  /** A join that waited for the connection goes ahead. */
  function EndWait(s: State, requestId: string): State {
    if !s.waiting || s.connection != Connected then s
    else
      var w := s.(waiting := false);
      if s.state == Joining then SendJoinRequest(w, requestId) else w
  }

  function OnConnection(s: State, connection: Connection, requestId: string): State {
    EndWait(Follow(s.(connection := connection), requestId), requestId)
  }

  const TIMED_OUT: Object :=
    map["code" := Str("CHANNEL_ERROR"), "status" := Num(408), "statusCode" := Num(408)]

  /** The runtime calls a time limit. */
  function TimerFires(s: State, t: nat): State
    requires t in s.timers
  {
    var fired := s.(timers := s.timers - {t});
    if s.pending != Some(s.timers[t]) then fired else Decline(fired, TIMED_OUT, s.timers[t])
  }
}
