/** The Rust client's channel as the client keeps it: objects whose methods update their fields, each equal to
    its function in `ClientSpec`. */
module ClientChannel {
  import opened Json
  import opened ClientSpec

  /** The part of the client that a channel uses. `wire` is a record of the traffic for that channel. */
  class ClientInner {
    const maxQueueSize: nat
    var connection: Connection
    var outbound: bool
    var wire: seq<Frame>

    constructor (maxQueueSize: nat)
      ensures this.maxQueueSize == maxQueueSize && connection == Disconnected && !outbound && wire == []
    {
      this.maxQueueSize := maxQueueSize;
      connection, outbound, wire := Disconnected, false, [];
    }

    method Publish(m: Message) returns (ok: bool)
      modifies this`wire
      ensures ok == outbound
      ensures wire == if outbound then old(wire) + [Sent(m)] else old(wire)
    {
      ok := outbound;
      if ok { wire := wire + [Sent(m)]; }
    }
  }

  class Channel {
    const params: Object
    const client: ClientInner
    var state: ChannelState
    var queue: seq<Message>
    var pending: set<string>
    var closed: bool
    var declineReason: Option<Object>
    var answered: seq<(string, Object)>
    var events: seq<ServerMessage>

    function Model(): Session
      reads this, client
    {
      Session(params, client.maxQueueSize, client.connection, client.outbound, client.wire,
              state, queue, pending, closed, declineReason, answered, events)
    }

    constructor (client: ClientInner, params: Object)
      ensures this.client == client
      ensures Model() == NewChannel(params, client.maxQueueSize, client.connection, client.outbound, client.wire)
    {
      this.client, this.params := client, params;
      state, queue, pending, closed := Idle, [], {}, false;
      declineReason, answered, events := None, [], [];
    }

    method EnqueueOrSend(m: Message)
      modifies this`queue, client`wire
      ensures Model() == ClientSpec.EnqueueOrSend(old(Model()), m)
    {
      var connected := client.connection == Connected;
      var joined := state == Joined;
      var isJoin := m.action == JoinChannel;
      if connected && (joined || isJoin) {
        var ok := client.Publish(m);
        if ok { return; }
      }
      if |queue| == client.maxQueueSize && queue != [] {
        queue := queue[1..];
      }
      queue := queue + [m];
    }

    method Join(requestId: string)
      modifies this`state, this`queue, client`wire
      ensures Model() == ClientSpec.Join(old(Model()), requestId)
    {
      if closed { return; }
      if state == Joining || state == Joined || state == Declined { return; }
      state := Joining;
      EnqueueOrSend(JoinMessage(params, requestId));
    }

    method Leave(requestId: string)
      modifies this, client`wire
      ensures Model() == ClientSpec.Leave(old(Model()), requestId)
    {
      if closed { return; }
      var _ := client.Publish(LeaveMessage(requestId));
      ForceClose();
    }

    method SendMessage(event: string, payload: Object, requestId: string)
      modifies this`queue, client`wire
      ensures Model() == ClientSpec.SendMessage(old(Model()), event, payload, requestId)
    {
      if closed { return; }
      EnqueueOrSend(Message(Broadcast, event, payload, requestId));
    }

    method SendForResponse(event: string, payload: Object, requestId: string) returns (accepted: bool)
      modifies this`pending, this`queue, client`wire
      ensures accepted == !closed
      ensures Model() == ClientSpec.SendForResponse(old(Model()), event, payload, requestId)
    {
      if closed { return false; }
      pending := pending + {requestId};
      EnqueueOrSend(Message(Broadcast, event, payload, requestId));
      return true;
    }

    method StopWaiting(requestId: string)
      modifies this`pending
      ensures Model() == ClientSpec.StopWaiting(old(Model()), requestId)
    {
      pending := pending - {requestId};
    }

    method RetainOthers()
      modifies this`queue
      ensures queue == WithoutJoins(old(queue))
    {
      var kept: seq<Message> := [];
      var i := 0;
      while i < |queue|
        invariant i <= |queue| && queue == old(queue)
        invariant kept + WithoutJoins(queue[i..]) == WithoutJoins(queue)
      {
        if queue[i].action != JoinChannel { kept := kept + [queue[i]]; }
        i := i + 1;
      }
      queue := kept;
    }

    method OnConnectionChange(connection: Connection, requestId: string)
      modifies this`state, this`queue, client`wire
      ensures Model() == match connection
                         case Disconnected => OnDisconnected(old(Model()))
                         case Connected => OnConnected(old(Model()), requestId)
                         case Connecting => old(Model())
    {
      if closed { return; }
      match connection
      case Disconnected =>
        if state == Joined || state == Joining { state := Stalled; }
      case Connected =>
        if state == Stalled || state == Joining {
          RetainOthers();
          state := Stalled;
          Join(requestId);
        }
      case Connecting =>
    }

    method HandleEvent(m: ServerMessage)
      modifies this, client`wire
      ensures Model() == ClientSpec.HandleEvent(old(Model()), m)
    {
      if closed { return; }
      if m.system && m.event == Evicted {
        events := events + [m];
        ForceClose();
        return;
      }
      if m.system && m.event == ServerEvent.Acknowledge {
        client.wire := client.wire + [Acked];
        if state == Joining || state == Stalled { Acknowledge(); }
        return;
      }
      if m.system && (m.event == Unauthorized || m.event == NotFound) && (state == Joining || state == Stalled) {
        Decline(m.payload);
        return;
      }
      if m.requestId in pending {
        pending := pending - {m.requestId};
        answered := answered + [(m.requestId, m.payload)];
        return;
      }
      if state == Joined { events := events + [m]; }
    }

    method Acknowledge()
      modifies this`state, this`queue, client`wire
      ensures Model() == Acknowledged(old(Model()))
    {
      if state != Joined { state := Joined; }
      var drained := queue;
      queue := [];
      PublishAll(drained);
    }

    method PublishAll(messages: seq<Message>)
      modifies client`wire
      ensures client.wire == old(client.wire) + if client.outbound then SentAll(messages) else []
    {
      var i := 0;
      while i < |messages|
        invariant i <= |messages|
        invariant if client.outbound then client.wire + SentAll(messages[i..]) == old(client.wire) + SentAll(messages)
                  else client.wire == old(client.wire)
      {
        var sent := client.Publish(messages[i]);
        assert sent ==> SentAll(messages[i..]) == [Sent(messages[i])] + SentAll(messages[i + 1..]);
        i := i + 1;
      }
    }

    method Decline(reason: Object)
      modifies this`declineReason, this`state, this`queue, this`pending
      ensures Model() == ClientSpec.Decline(old(Model()), reason)
    {
      declineReason := Some(reason);
      state := Declined;
      queue := [];
      pending := {};
    }

    method ForceClose()
      modifies this`closed, this`state, this`queue, this`pending
      ensures Model() == ClientSpec.ForceClose(old(Model()))
    {
      closed := true;
      state := Closed;
      queue := [];
      pending := {};
    }
  }
}
