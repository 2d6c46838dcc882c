/** What each step of a JavaScript channel decides, said without the functions that compute it: the next state, the
    messages passed on, the queue, the request under way and the errors reported. */
module JsChannelLaws {
  import opened Json
  import opened JsChannelSpec
  import opened JsChannelRuns

  // ---------- what each step leaves, field by field ----------

  /** An answer to the request under way; an answer without an id is taken for it as well. */
  predicate IsCurrent(s: State, requestId: string) {
    (s.state == Joining || s.state == Stalled) && (requestId == "" || s.pending == Some(requestId))
  }

  lemma AckShape(s: State, requestId: string)
    requires Sound(s) && s.connection == Connected
    ensures
      var t := Acknowledge(s, requestId);
      if IsCurrent(s, requestId)
      then t == s.(timers := t.timers, timeout := None, pending := None, lastError := None, state := Joined,
                   subscribed := true, sent := s.sent + s.queue, queue := [])
      else t == s
  {}

  lemma RefuseShape(s: State, payload: Object, requestId: string)
    requires Sound(s)
    ensures
      var t := Decline(s, payload, requestId);
      if IsCurrent(s, requestId) && s.pending.Some?
      then t == s.(timers := t.timers, timeout := None, pending := None, lastError := Some(payload), state := Declined,
                   queue := [], errors := s.errors + [payload])
      else !AwaitsJoin(s) ==> t == s.(errors := s.errors + [payload])
    ensures AwaitsJoin(s) && !IsCurrent(s, requestId) && s.pending.Some? ==> Decline(s, payload, requestId) == s
  {}

  lemma FireShape(s: State, timer: nat)
    requires Sound(s) && timer in s.timers
    ensures
      var t := TimerFires(s, timer);
      t == s.(timers := t.timers, timeout := None, pending := None, lastError := Some(TIMED_OUT), state := Declined,
              queue := [], errors := s.errors + [TIMED_OUT])
  {
    assert s.timeout == Some(timer) && s.pending == Some(s.timers[timer]);
  }

  lemma LostShape(s: State, c: Connection, id: string)
    requires Sound(s) && c != Connected
    ensures
      var t := OnConnection(s, c, id);
      if s.state == Joined then t == s.(connection := c, timers := t.timers, timeout := None, pending := None, state := Stalled)
      else t == s.(connection := c)
  {}

  // ---------- the next state ----------

  /** Only a step of this kind makes a channel ask to be joined anew. */
  predicate MayAsk(s: State) {
    s.state != Joining && s.state != Joined
  }

  /** The state diagram. A stalled channel stays so until the answer to its new request comes. */
  function NextState(s: State, op: Op): ChannelState {
    match op
    case JoinOp => if MayAsk(s) then Joining else s.state
    case LeaveOp => Closed
    case Ack(requestId) => if IsCurrent(s, requestId) then Joined else s.state
    case Refuse(_, requestId) => if IsCurrent(s, requestId) then Declined else s.state
    case ConnectionOp(c) => if c != Connected && s.state == Joined then Stalled else s.state
    case Fire(_) => Declined
    case Send(_) => s.state
  }

  lemma StateDecided(s: State, op: Op, id: string)
    requires Sound(s) && Enabled(s, op)
    ensures Step(s, op, id).state == NextState(s, op)
  {
    match op
    case ConnectionOp(c) => if c == Connected { OpenShape(s, id); } else { LostShape(s, c, id); }
    case Fire(t) => FireShape(s, t);
    case Ack(requestId) => AckShape(s, requestId);
    case Refuse(payload, requestId) => RefuseShape(s, payload, requestId);
    case _ =>
  }

  // ---------- what is passed on ----------

  predicate AsksNow(s: State, op: Op) {
    || (op == JoinOp && MayAsk(s) && s.connection == Connected)
    || (op == ConnectionOp(Connected) && (s.state == Stalled || (s.state == Joining && s.waiting)))
  }

  predicate JoinFor(m: Message, params: Object, id: string) {
    m.action == JoinChannel && m.event == "JOIN_CHANNEL" && m.payload == params && m.requestId == id
  }

  predicate LeaveFor(m: Message, id: string) {
    m.action == LeaveChannel && m.event == "LEAVE_CHANNEL" && m.payload == map[] && m.requestId == id
  }

  /** A step passes on one join when the channel asks anew over an open connection, one leave when it leaves while
      joined, the message published while joined, or the whole queue when joining succeeds; and nothing else. */
  lemma SendsExactly(s: State, op: Op, id: string)
    requires Sound(s) && Enabled(s, op)
    ensures
      var t := Step(s, op, id);
      if AsksNow(s, op) then |t.sent| == |s.sent| + 1 && s.sent <= t.sent && JoinFor(t.sent[|s.sent|], s.joinParams, id)
      else if op == LeaveOp && s.state == Joined
      then |t.sent| == |s.sent| + 1 && s.sent <= t.sent && LeaveFor(t.sent[|s.sent|], id)
      else if op.Send? && s.state == Joined then t.sent == s.sent + [op.message]
      else if op.Ack? && IsCurrent(s, op.requestId) then t.sent == s.sent + s.queue
      else t.sent == s.sent
  {
    match op
    case ConnectionOp(c) => if c == Connected { OpenShape(s, id); } else { LostShape(s, c, id); }
    case Fire(t) => FireShape(s, t);
    case Ack(requestId) => AckShape(s, requestId);
    case Refuse(payload, requestId) => RefuseShape(s, payload, requestId);
    case _ =>
  }

  // ---------- the request under way ----------

  /** The request under way after a step. */
  predicate RequestRight(s: State, t: State, op: Op, id: string) {
    t.pending == if AsksNow(s, op) then Some(id) else if AwaitsJoin(s) && AwaitsJoin(t) then s.pending else None
  }

  lemma AnswerRequest(s: State, op: Op, id: string)
    requires Sound(s) && Enabled(s, op) && (op.Ack? || op.Refuse? || op.Fire?)
    ensures RequestRight(s, Step(s, op, id), op, id)
  {
    match op
    case Fire(t) => FireShape(s, t);
    case Ack(requestId) => AckShape(s, requestId);
    case Refuse(payload, requestId) => RefuseShape(s, payload, requestId);
  }

  lemma ConnectionRequest(s: State, c: Connection, id: string)
    requires Sound(s)
    ensures RequestRight(s, OnConnection(s, c, id), ConnectionOp(c), id)
  {
    if c == Connected { OpenShape(s, id); } else { LostShape(s, c, id); }
  }

  /** A request that is passed on is the one under way from then on, until the channel awaits no join any more. */
  lemma RequestDecided(s: State, op: Op, id: string)
    requires Sound(s) && Enabled(s, op)
    ensures RequestRight(s, Step(s, op, id), op, id)
  {
    if op.Ack? || op.Refuse? || op.Fire? {
      AnswerRequest(s, op, id);
    } else if op.ConnectionOp? {
      ConnectionRequest(s, op.connection, id);
    }
  }

  /** Only a join over a connection that is not there waits for one; the channel follows the connection from its first
      acknowledgement until it leaves. */
  lemma WaitDecided(s: State, op: Op, id: string)
    requires Sound(s) && Enabled(s, op)
    ensures
      var t := Step(s, op, id);
      && (t.waiting <==> (s.waiting || (op == JoinOp && MayAsk(s) && s.connection != Connected))
                         && op != LeaveOp && op != ConnectionOp(Connected))
      && (t.subscribed <==> (s.subscribed || (op.Ack? && IsCurrent(s, op.requestId))) && op != LeaveOp)
  {
    match op
    case ConnectionOp(c) => if c == Connected { OpenShape(s, id); } else { LostShape(s, c, id); }
    case Fire(t) => FireShape(s, t);
    case Ack(requestId) => AckShape(s, requestId);
    case Refuse(payload, requestId) => RefuseShape(s, payload, requestId);
    case _ =>
  }

  lemma SettingsStay(s: State, op: Op, id: string)
    requires Sound(s) && Enabled(s, op)
    ensures var t := Step(s, op, id);
            && t.connection == (if op.ConnectionOp? then op.connection else s.connection)
            && t.joinParams == s.joinParams && t.maxQueueSize == s.maxQueueSize
  {
    match op
    case ConnectionOp(c) => if c == Connected { OpenShape(s, id); } else { LostShape(s, c, id); }
    case Fire(t) => FireShape(s, t);
    case Ack(requestId) => AckShape(s, requestId);
    case Refuse(payload, requestId) => RefuseShape(s, payload, requestId);
    case _ =>
  }

  // ---------- errors ----------

  /** A refusal of the request under way is the channel's last error and is reported; one that nobody awaits is only
      reported; one of an earlier request is not. A time limit is reported with status 408. Joining forgets. */
  lemma ErrorsDecided(s: State, op: Op, id: string)
    requires Sound(s) && Enabled(s, op)
    ensures
      var t := Step(s, op, id);
      match op
      case Refuse(payload, requestId) =>
        && t.errors == (if AwaitsJoin(s) && !IsCurrent(s, requestId) then s.errors else s.errors + [payload])
        && t.lastError == (if IsCurrent(s, requestId) then Some(payload) else s.lastError)
      case Fire(_) =>
        && |t.errors| == |s.errors| + 1 && s.errors <= t.errors && t.lastError == Some(t.errors[|s.errors|])
        && "code" in t.lastError.value && t.lastError.value["code"] == Str("CHANNEL_ERROR")
        && "status" in t.lastError.value && t.lastError.value["status"] == Num(408)
      case _ =>
        && t.errors == s.errors
        && t.lastError == if (op == JoinOp && MayAsk(s)) || (op.Ack? && IsCurrent(s, op.requestId)) then None else s.lastError
  {
    match op
    case ConnectionOp(c) => if c == Connected { OpenShape(s, id); } else { LostShape(s, c, id); }
    case Fire(t) => FireShape(s, t);
    case Ack(requestId) => AckShape(s, requestId);
    case Refuse(payload, requestId) => RefuseShape(s, payload, requestId);
    case _ =>
  }

  // ---------- the queue ----------

  predicate Queues(s: State) {
    s.state == Idle || s.state == Joining || s.state == Stalled
  }

  predicate QueueRight(s: State, t: State) {
    t.queue == if Queues(t) && s.state != Declined then s.queue else []
  }

  lemma AnswerQueue(s: State, op: Op, id: string)
    requires Sound(s) && Enabled(s, op) && (op.Ack? || op.Refuse? || op.Fire?)
    ensures QueueRight(s, Step(s, op, id))
  {
    match op
    case Fire(t) => FireShape(s, t);
    case Ack(requestId) => AckShape(s, requestId);
    case Refuse(payload, requestId) => RefuseShape(s, payload, requestId);
  }

  lemma ConnectionQueue(s: State, c: Connection, id: string)
    requires Sound(s)
    ensures QueueRight(s, OnConnection(s, c, id))
  {
    if c == Connected { OpenShape(s, id); } else { LostShape(s, c, id); }
  }

  /** No step but publishing changes the queue, except that a channel whose join is decided, or that leaves, has an
      empty one. */
  lemma QueueKept(s: State, op: Op, id: string)
    requires Sound(s) && Enabled(s, op) && !op.Send?
    ensures QueueRight(s, Step(s, op, id))
  {
    if op.Ack? || op.Refuse? || op.Fire? {
      AnswerQueue(s, op, id);
    } else if op.ConnectionOp? {
      ConnectionQueue(s, op.connection, id);
    }
  }

  lemma PublishDecided(s: State, m: Message)
    requires Sound(s)
    ensures var (t, outcome) := Publish(s, m);
            && (outcome == Refused <==> s.state == Declined || s.state == Closed)
            && (outcome == Refused ==> t == s)
            && (!Queues(s) ==> t.queue == s.queue)
            && (Queues(s) ==> t.queue != [] && t.queue[|t.queue| - 1] == m)
  {}

  function PublishAll(s: State, messages: seq<Message>): State
    decreases |messages|
  {
    if messages == [] then s
    else Publish(PublishAll(s, messages[..|messages| - 1]), messages[|messages| - 1]).0
  }

  /** The last `n` of the messages, or all if they are fewer. */
  function Latest(messages: seq<Message>, n: nat): seq<Message> {
    if |messages| <= n then messages else messages[|messages| - n..]
  }

  function Limit(s: State): (n: nat)
    ensures n > 0
  {
    if s.maxQueueSize == 0 then 1 else s.maxQueueSize
  }

  lemma OnePublished(s: State, before: seq<Message>, m: Message)
    requires Queues(s)
    ensures Publish(s.(queue := Latest(before, Limit(s))), m).0 == s.(queue := Latest(before + [m], Limit(s)))
  {
    LatestStep(before, m, Limit(s));
    PublishPushes(s.(queue := Latest(before, Limit(s))), m);
  }

  lemma PublishPushes(s: State, m: Message)
    requires Queues(s)
    ensures Publish(s, m).0 == s.(queue := (if |s.queue| >= Limit(s) then s.queue[1..] else s.queue) + [m])
  {}

  lemma LatestStep(messages: seq<Message>, m: Message, limit: nat)
    requires limit > 0
    ensures var kept := Latest(messages, limit);
            Latest(messages + [m], limit) == (if |kept| >= limit then kept[1..] else kept) + [m]
  {}

  /** A channel that is not joined keeps the latest messages, as many as its limit allows, in the order they were
      published; a limit of 0 allows one. */
  lemma {:induction false} QueueKeepsLatest(s: State, messages: seq<Message>)
    requires Queues(s) && s.queue == []
    ensures PublishAll(s, messages) == s.(queue := Latest(messages, Limit(s)))
    decreases |messages|
  {
    if messages != [] {
      var before := messages[..|messages| - 1];
      QueueKeepsLatest(s, before);
      OnePublished(s, before, messages[|messages| - 1]);
      assert before + [messages[|messages| - 1]] == messages;
    }
  }
}
