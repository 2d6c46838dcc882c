/** The JavaScript channel as an object that changes its fields, each method equal to its specification. */
module JsChannel {
  import opened Json
  import opened JsChannelSpec

  class Channel {
    const joinParams: Object
    const maxQueueSize: nat
    var connection: Connection
    var sent: seq<Message>
    var state: ChannelState
    var queue: seq<Message>
    var pendingJoinRequestId: Option<string>
    var joinTimeoutId: Option<nat>
    var timers: map<nat, string>
    var nextTimer: nat
    var connectionWait: bool
    var subscribed: bool
    var lastError: Option<Object>
    var errors: seq<Object>

    function Model(): State
      reads this
    {
      State(joinParams, maxQueueSize, connection, sent, state, queue, pendingJoinRequestId, joinTimeoutId, timers,
            nextTimer, connectionWait, subscribed, lastError, errors)
    }

    constructor (joinParams: Object, maxQueueSize: nat, connection: Connection)
      ensures Model() == Fresh(joinParams, maxQueueSize, connection)
    {
      this.joinParams, this.maxQueueSize, this.connection := joinParams, maxQueueSize, connection;
      sent, state, queue, pendingJoinRequestId, joinTimeoutId := [], Idle, [], None, None;
      timers, nextTimer, connectionWait, subscribed, lastError, errors := map[], 0, false, false, None, [];
    }

    method Publisher(message: Message)
      modifies this`sent
      ensures sent == Published(old(Model()), [message])
    {
      if connection == Connected { sent := sent + [message]; }
    }

    method ClearJoinTimeout()
      modifies this`timers, this`joinTimeoutId
      ensures Model() == ClearTimeout(old(Model()))
    {
      if joinTimeoutId.Some? {
        timers := timers - {joinTimeoutId.value};
        joinTimeoutId := None;
      }
    }

    method SendJoinRequest(requestId: string)
      modifies this`timers, this`joinTimeoutId, this`pendingJoinRequestId, this`sent, this`nextTimer
      ensures Model() == JsChannelSpec.SendJoinRequest(old(Model()), requestId)
    {
      ClearJoinTimeout();
      pendingJoinRequestId := Some(requestId);
      Publisher(Message(JoinChannel, "JOIN_CHANNEL", joinParams, requestId));
      timers := timers[nextTimer := requestId];
      joinTimeoutId := Some(nextTimer);
      nextTimer := nextTimer + 1;
    }

    method EmptyQueue()
      modifies this`queue, this`sent
      ensures Model() == old(Model()).(queue := [], sent := Published(old(Model()), old(queue)))
    {
      var i := 0;
      while i < |queue|
        invariant i <= |queue| && queue == old(queue)
        invariant sent == if connection == Connected then old(sent) + queue[..i] else old(sent)
      {
        Publisher(queue[i]);
        i := i + 1;
      }
      assert old(queue)[..i] == old(queue);
      queue := [];
    }

    method Acknowledge(requestId: string)
      modifies this
      ensures Model() == JsChannelSpec.Acknowledge(old(Model()), requestId)
    {
      if state != Joining && state != Stalled { return; }
      if requestId != "" && pendingJoinRequestId.Some? && pendingJoinRequestId.value != ""
         && requestId != pendingJoinRequestId.value { return; }
      ClearJoinTimeout();
      pendingJoinRequestId := None;
      lastError := None;
      state := Joined;
      subscribed := true;
      EmptyQueue();
    }

    method Decline(payload: Object, requestId: string)
      modifies this
      ensures Model() == JsChannelSpec.Decline(old(Model()), payload, requestId)
    {
      if state != Joining && state != Stalled {
        errors := errors + [payload];
        return;
      }
      if requestId != "" && pendingJoinRequestId.Some? && pendingJoinRequestId.value != ""
         && requestId != pendingJoinRequestId.value { return; }
      ClearJoinTimeout();
      pendingJoinRequestId := None;
      lastError := Some(payload);
      state := Declined;
      queue := [];
      errors := errors + [payload];
    }

    method Join(requestId: string)
      modifies this
      ensures Model() == JsChannelSpec.Join(old(Model()), requestId)
    {
      if state == Joined || state == Joining { return; }
      lastError := None;
      state := Joining;
      if connection == Connected {
        SendJoinRequest(requestId);
      } else {
        connectionWait := true;
      }
    }

    method Leave(requestId: string)
      modifies this
      ensures Model() == JsChannelSpec.Leave(old(Model()), requestId)
    {
      if state == Joined { Publisher(Message(LeaveChannel, "LEAVE_CHANNEL", map[], requestId)); }
      ClearJoinTimeout();
      connectionWait := false;
      pendingJoinRequestId := None;
      queue := [];
      state := Closed;
      subscribed := false;
    }

    method Publish(message: Message) returns (outcome: Outcome)
      modifies this`queue, this`sent
      ensures (Model(), outcome) == JsChannelSpec.Publish(old(Model()), message)
    {
      if state == Joined {
        Publisher(message);
        return Accepted;
      }
      if state == Declined || state == Closed { return Refused; }
      if |queue| >= maxQueueSize && queue != [] {
        queue := queue[1..];
      }
      queue := queue + [message];
      return Accepted;
    }

    method OnConnection(connection: Connection, requestId: string)
      modifies this
      ensures Model() == JsChannelSpec.OnConnection(old(Model()), connection, requestId)
    {
      this.connection := connection;
      FollowConnection(requestId);
      if connectionWait && connection == Connected {
        connectionWait := false;
        if state == Joining { SendJoinRequest(requestId); }
      }
    }

    /** What the subscription made by the first acknowledgement does. */
    method FollowConnection(requestId: string)
      modifies this
      ensures Model() == Follow(old(Model()), requestId)
    {
      if !subscribed { return; }
      if connection == Connected && state == Stalled {
        SendJoinRequest(requestId);
      } else if connection != Connected && state == Joined {
        ClearJoinTimeout();
        pendingJoinRequestId := None;
        state := Stalled;
      }
    }

    method OnTimeout(t: nat)
      requires t in timers
      modifies this
      ensures Model() == TimerFires(old(Model()), t)
    {
      var requestId := timers[t];
      timers := timers - {t};
      if pendingJoinRequestId != Some(requestId) { return; }
      Decline(TIMED_OUT, requestId);
    }
  }
}
