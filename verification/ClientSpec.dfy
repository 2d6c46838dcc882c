/** One channel of the Rust client together with the connection it uses: what each operation does to both, as
    functions. `wire` is the record of what passed on the connection: when it was opened, what was sent for this
    channel and which acknowledgements came back. */
module ClientSpec {
  import opened Json

  datatype Connection = Disconnected | Connecting | Connected
  datatype ChannelState = Idle | Joining | Joined | Stalled | Declined | Closed
  datatype ClientAction = JoinChannel | LeaveChannel | Broadcast

  datatype Message = Message(action: ClientAction, event: string, payload: Object, requestId: string)

  datatype ServerEvent = Evicted | Acknowledge | Unauthorized | NotFound | Named(text: string)
  datatype ServerMessage = ServerMessage(system: bool, event: ServerEvent, payload: Object, requestId: string)

  datatype Frame = Opened | Sent(message: Message) | Acked

  datatype Session = Session(
    params: Object,
    maxQueueSize: nat,
    connection: Connection,
    outbound: bool,                         // the writer of the connection accepts messages
    wire: seq<Frame>,
    state: ChannelState,
    queue: seq<Message>,
    pending: set<string>,                   // requests waiting for a response
    closed: bool,
    declineReason: Option<Object>,
    answered: seq<(string, Object)>,        // responses handed to their requests
    events: seq<ServerMessage>)             // messages handed to subscribers

  function NewChannel(params: Object, maxQueueSize: nat, connection: Connection, outbound: bool, wire: seq<Frame>): Session {
    Session(params, maxQueueSize, connection, outbound, wire, Idle, [], {}, false, None, [], [])
  }

  function JoinMessage(params: Object, requestId: string): Message {
    Message(JoinChannel, "JOIN_CHANNEL", params, requestId)
  }

  function LeaveMessage(requestId: string): Message {
    Message(LeaveChannel, "LEAVE_CHANNEL", map[], requestId)
  }

  // ---------- sending ----------

  function Published(s: Session, m: Message): seq<Frame> {
    if s.outbound then s.wire + [Sent(m)] else s.wire
  }

  predicate SendsNow(s: Session, m: Message) {
    s.connection == Connected && (s.state == Joined || m.action == JoinChannel) && s.outbound
  }

  /** A full queue loses its oldest message; an empty one has none to lose, even when the size limit is 0. */
  function Pushed(queue: seq<Message>, maxQueueSize: nat, m: Message): seq<Message> {
    (if |queue| == maxQueueSize && queue != [] then queue[1..] else queue) + [m]
  }

  function EnqueueOrSend(s: Session, m: Message): Session {
    if SendsNow(s, m) then s.(wire := s.wire + [Sent(m)])
    else s.(queue := Pushed(s.queue, s.maxQueueSize, m))
  }

  function Join(s: Session, requestId: string): Session {
    if s.closed || s.state == Joining || s.state == Joined || s.state == Declined then s
    else EnqueueOrSend(s.(state := Joining), JoinMessage(s.params, requestId))
  }

  function ForceClose(s: Session): Session {
    s.(closed := true, state := Closed, queue := [], pending := {})
  }

  function Leave(s: Session, requestId: string): Session {
    if s.closed then s else ForceClose(s.(wire := Published(s, LeaveMessage(requestId))))
  }

  function SendMessage(s: Session, event: string, payload: Object, requestId: string): Session {
    if s.closed then s else EnqueueOrSend(s, Message(Broadcast, event, payload, requestId))
  }

  /** `send_for_response` up to where it waits. */
  function SendForResponse(s: Session, event: string, payload: Object, requestId: string): Session {
    if s.closed then s
    else EnqueueOrSend(s.(pending := s.pending + {requestId}), Message(Broadcast, event, payload, requestId))
  }

  /** The end of its wait, with or without a response. */
  function StopWaiting(s: Session, requestId: string): Session {
    s.(pending := s.pending - {requestId})
  }

  // ---------- the connection ----------

  function WithoutJoins(queue: seq<Message>): seq<Message> {
    if queue == [] then []
    else (if queue[0].action == JoinChannel then [] else [queue[0]]) + WithoutJoins(queue[1..])
  }

  function OnDisconnected(s: Session): Session {
    if !s.closed && (s.state == Joined || s.state == Joining) then s.(state := Stalled) else s
  }

  function OnConnected(s: Session, requestId: string): Session {
    if !s.closed && (s.state == Stalled || s.state == Joining)
    then Join(s.(queue := WithoutJoins(s.queue), state := Stalled), requestId)
    else s
  }

  /** The connection is up; the channel is told at once. */
  function Open(s: Session, requestId: string): Session {
    OnConnected(s.(connection := Connected, outbound := true, wire := s.wire + [Opened]), requestId)
  }

  /** The connection ended; the channel is told at once. */
  function Lose(s: Session): Session {
    OnDisconnected(s.(connection := Disconnected, outbound := false))
  }

  /** `disconnect`: the client also closes its channels. */
  function Disconnect(s: Session): Session {
    ForceClose(Lose(s))
  }

  // ---------- receiving ----------

  function SentAll(messages: seq<Message>): seq<Frame> {
    if messages == [] then [] else [Sent(messages[0])] + SentAll(messages[1..])
  }

  /** What could not be sent from the queue now is lost. */
  function Acknowledged(s: Session): Session {
    s.(state := Joined, queue := [], wire := s.wire + if s.outbound then SentAll(s.queue) else [])
  }

  function Decline(s: Session, reason: Object): Session {
    s.(declineReason := Some(reason), state := Declined, queue := [], pending := {})
  }

  predicate AwaitsJoin(s: Session) {
    s.state == Joining || s.state == Stalled
  }

  function HandleMessage(s: Session, m: ServerMessage): Session {
    if m.system && m.event == Evicted then ForceClose(s.(events := s.events + [m]))
    else if m.system && m.event == Acknowledge then
      var heard := s.(wire := s.wire + [Acked]);
      if AwaitsJoin(s) then Acknowledged(heard) else heard
    else if m.system && (m.event == Unauthorized || m.event == NotFound) && AwaitsJoin(s) then Decline(s, m.payload)
    else if m.requestId in s.pending then
      s.(pending := s.pending - {m.requestId}, answered := s.answered + [(m.requestId, m.payload)])
    else if s.state == Joined then s.(events := s.events + [m])
    else s
  }

  function HandleEvent(s: Session, m: ServerMessage): Session {
    if s.closed then s else HandleMessage(s, m)
  }
}
