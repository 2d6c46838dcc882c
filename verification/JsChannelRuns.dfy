/** Runs of a JavaScript channel: every answer and every time limit belongs to the join request under way. */
module JsChannelRuns {
  import opened Json
  import opened JsChannelSpec

  datatype Op =
    | JoinOp
    | LeaveOp
    | Send(message: Message)
    | Ack(requestId: string)
    | Refuse(payload: Object, requestId: string)
    | ConnectionOp(connection: Connection)
    | Fire(timer: nat)

  /** Answers come over an open connection; a channel that was left is not joined again. */
  predicate Enabled(s: State, op: Op) {
    match op
    case JoinOp => s.state != Closed
    case Send(m) => m.action == Broadcast
    case Ack(_) => s.connection == Connected
    case Refuse(_, _) => s.connection == Connected
    case Fire(t) => t in s.timers
    case _ => true
  }

  function Step(s: State, op: Op, id: string): State
    requires Enabled(s, op)
  {
    match op
    case JoinOp => Join(s, id)
    case LeaveOp => Leave(s, id)
    case Send(m) => Publish(s, m).0
    case Ack(requestId) => Acknowledge(s, requestId)
    case Refuse(payload, requestId) => Decline(s, payload, requestId)
    case ConnectionOp(c) => OnConnection(s, c, id)
    case Fire(t) => TimerFires(s, t)
  }

  /** One time limit runs exactly while a request is under way, and it is the one of that request. */
  predicate TimerRight(s: State) {
    match s.pending
    case None => |s.timers| == 0 && s.timeout == None
    case Some(id) => s.timeout.Some? && s.timeout.value < s.nextTimer && s.timers == map[s.timeout.value := id]
  }

  predicate Sound(s: State) {
    && TimerRight(s)
    && (s.pending.Some? ==> AwaitsJoin(s) && s.pending.value != "")
    && (s.connection == Connected && AwaitsJoin(s) ==> s.pending.Some?)
    && (s.state == Joined ==> s.connection == Connected && s.queue == [])
    && (s.state == Joined || s.state == Stalled ==> s.subscribed)
    && (s.waiting ==> s.connection != Connected && s.state != Closed)
    && (s.state == Joining && s.connection != Connected && s.pending.None? ==> s.waiting)
    && (s.state == Declined || s.state == Closed ==> s.queue == [])
    && |s.queue| <= (if s.maxQueueSize == 0 then 1 else s.maxQueueSize)
  }

  lemma FreshSound(joinParams: Object, maxQueueSize: nat, connection: Connection)
    ensures Sound(Fresh(joinParams, maxQueueSize, connection))
  {}

  /** Dropping the time limit of a sound channel leaves none. */
  lemma ClearedTimers(s: State)
    requires TimerRight(s)
    ensures |ClearTimeout(s).timers| == 0 && ClearTimeout(s).timeout == None
  {
    if s.timeout.Some? { assert ClearTimeout(s).timers == map[]; }
  }

  lemma RequestTimer(s: State, id: string)
    requires TimerRight(s)
    ensures TimerRight(SendJoinRequest(s, id))
  {
    ClearedTimers(s);
    assert ClearTimeout(s).timers == map[];
  }

  lemma StepSound(s: State, op: Op, id: string)
    requires Sound(s) && Enabled(s, op) && id != ""
    ensures Sound(Step(s, op, id))
  {
    match op
    case JoinOp => JoinSound(s, id);
    case LeaveOp => LeaveSound(s, id);
    case Send(m) => SendSound(s, m);
    case Ack(requestId) => AckSound(s, requestId);
    case Refuse(payload, requestId) => RefuseSound(s, payload, requestId);
    case ConnectionOp(c) => if c == Connected { OpenSound(s, id); } else { LostSound(s, c, id); }
    case Fire(t) => FireSound(s, t);
  }

  lemma JoinSound(s: State, id: string)
    requires Sound(s) && s.state != Closed && id != ""
    ensures Sound(Join(s, id))
  {
    RequestTimer(s.(lastError := None, state := Joining), id);
  }

  lemma LeaveSound(s: State, id: string)
    requires Sound(s)
    ensures Sound(Leave(s, id))
  {
    ClearedTimers(s);
  }

  lemma SendSound(s: State, m: Message)
    requires Sound(s)
    ensures Sound(Publish(s, m).0)
  {}

  lemma AckSound(s: State, requestId: string)
    requires Sound(s) && s.connection == Connected
    ensures Sound(Acknowledge(s, requestId))
  {
    ClearedTimers(s);
  }

  lemma RefuseSound(s: State, payload: Object, requestId: string)
    requires Sound(s) && s.connection == Connected
    ensures Sound(Decline(s, payload, requestId))
  {
    ClearedTimers(s);
  }

  lemma OpenShape(s: State, id: string)
    requires Sound(s)
    ensures var n := s.(connection := Connected, waiting := false);
            OnConnection(s, Connected, id) ==
            if s.state == Stalled || (s.state == Joining && s.waiting) then SendJoinRequest(n, id) else n
  {}

  lemma OpenSound(s: State, id: string)
    requires Sound(s) && id != ""
    ensures Sound(OnConnection(s, Connected, id))
  {
    OpenShape(s, id);
    RequestTimer(s.(connection := Connected, waiting := false), id);
  }

  lemma LostSound(s: State, c: Connection, id: string)
    requires Sound(s) && c != Connected
    ensures Sound(OnConnection(s, c, id))
  {
    ClearedTimers(s.(connection := c));
  }

  lemma FireSound(s: State, t: nat)
    requires Sound(s) && t in s.timers
    ensures Sound(TimerFires(s, t))
  {
    assert s.timeout == Some(t) && s.pending == Some(s.timers[t]);
    assert s.timers - {t} == map[] && (s.timers - {t}) - {t} == map[];
  }

  // ---------- whole runs ----------

  predicate Runs(s: State, ops: seq<(Op, string)>)
    decreases |ops|
  {
    ops == [] || (Enabled(s, ops[0].0) && ops[0].1 != "" && Runs(Step(s, ops[0].0, ops[0].1), ops[1..]))
  }

  function After(s: State, ops: seq<(Op, string)>): State
    requires Runs(s, ops)
    decreases |ops|
  {
    if ops == [] then s else After(Step(s, ops[0].0, ops[0].1), ops[1..])
  }

  lemma {:induction false} RunSound(s: State, ops: seq<(Op, string)>)
    requires Sound(s) && Runs(s, ops)
    ensures Sound(After(s, ops))
    decreases |ops|
  {
    if ops != [] {
      StepSound(s, ops[0].0, ops[0].1);
      RunSound(Step(s, ops[0].0, ops[0].1), ops[1..]);
    }
  }

  /** In every run: the time limits still to come are exactly one for the request under way, or none; a request
      is only under way while the channel is joining or stalled, and always then while connected; a joined
      channel is connected and has sent its whole queue. */
  lemma JoinCorrelation(joinParams: Object, maxQueueSize: nat, connection: Connection, ops: seq<(Op, string)>)
    requires Runs(Fresh(joinParams, maxQueueSize, connection), ops)
    ensures
      var s := After(Fresh(joinParams, maxQueueSize, connection), ops);
      && (s.pending.None? ==> s.timers == map[])
      && (s.pending.Some? ==> s.timeout.Some? && s.timers == map[s.timeout.value := s.pending.value])
      && (s.pending.Some? ==> AwaitsJoin(s))
      && (s.connection == Connected && AwaitsJoin(s) ==> s.pending.Some?)
      && (s.state == Joined ==> s.connection == Connected && s.queue == [])
  {
    FreshSound(joinParams, maxQueueSize, connection);
    RunSound(Fresh(joinParams, maxQueueSize, connection), ops);
  }

  /** While connected, an acknowledgement or a refusal changes the channel's state if and only if a join is awaited
      and the answer names the request under way, or none. */
  lemma OnlyCurrentAnswers(s: State, op: Op, id: string)
    requires Sound(s) && Enabled(s, op) && (op.Ack? || op.Refuse?)
    ensures Step(s, op, id).state != s.state
       <==> AwaitsJoin(s) && (op.requestId == "" || s.pending == Some(op.requestId))
    ensures Step(s, op, id).state == s.state ==>
              Step(s, op, id) == s || (op.Refuse? && !AwaitsJoin(s) && Step(s, op, id) == s.(errors := s.errors + [op.payload]))
  {}

  /** A time limit that fires is that of the request under way, and declines it. */
  lemma TimeLimitDeclines(s: State, t: nat)
    requires Sound(s) && t in s.timers
    ensures s.pending == Some(s.timers[t]) && AwaitsJoin(s)
    ensures var n := TimerFires(s, t);
            n.state == Declined && n.lastError == Some(TIMED_OUT) && n.queue == [] && n.pending.None? && n.timers == map[]
  {
    FireSound(s, t);
  }

  predicate IsJoin(m: Message) {
    m.action == JoinChannel
  }

  /** On a new connection a join request goes out exactly for a stalled channel and for a join that waited for
      the connection. A first join that was under way when the connection broke is not repeated: it stays joining
      until its old time limit declines it. */
  lemma RepeatedOnReconnect(s: State, id: string)
    requires Sound(s) && s.connection != Connected && id != ""
    ensures var n := OnConnection(s, Connected, id);
            && ((exists m :: n.sent == s.sent + [m] && IsJoin(m) && m.requestId == id)
                <==> s.state == Stalled || (s.state == Joining && s.waiting))
            && (s.state == Joining && !s.waiting ==> n.sent == s.sent && n.state == Joining && n.timers == s.timers)
  {
    var m := Message(JoinChannel, "JOIN_CHANNEL", s.joinParams, id);
    if s.state == Stalled || (s.state == Joining && s.waiting) {
      assert OnConnection(s, Connected, id).sent == s.sent + [m] && IsJoin(m);
    }
  }

  /** Joining while connected, losing the connection before the answer, and a new connection. */
  function CutOff(id: string, id2: string, id3: string): seq<(Op, string)> {
    [(JoinOp, id), (ConnectionOp(Disconnected), id2), (ConnectionOp(Connected), id3)]
  }

  /** That run ends with the channel joining over the new connection, on which no request has gone out. */
  lemma FirstJoinNotRepeated(joinParams: Object, id: string, id2: string, id3: string)
    requires id != "" && id2 != "" && id3 != ""
    ensures Runs(Fresh(joinParams, 100, Connected), CutOff(id, id2, id3))
    ensures var s := After(Fresh(joinParams, 100, Connected), CutOff(id, id2, id3));
            && s.state == Joining && s.connection == Connected && s.pending == Some(id)
            && s.sent == [Message(JoinChannel, "JOIN_CHANNEL", joinParams, id)]
  {
    var s0, ops := Fresh(joinParams, 100, Connected), CutOff(id, id2, id3);
    var s1 := Step(s0, JoinOp, id);
    var s2 := Step(s1, ConnectionOp(Disconnected), id2);
    var s3 := Step(s2, ConnectionOp(Connected), id3);
    assert ops[1..] == [ops[1], ops[2]] && ops[1..][1..] == [ops[2]] && ops[1..][1..][1..] == [];
    assert Runs(s2, [ops[2]]) && After(s2, [ops[2]]) == s3;
    assert Runs(s1, ops[1..]) && After(s1, ops[1..]) == s3;
  }

  /** The messages that a step passes on: broadcasts only by a channel that is then joined, the queue first. */
  predicate SendsRight(s: State, n: State, op: Op) {
    && s.sent <= n.sent
    && (forall i :: |s.sent| <= i < |n.sent| && n.sent[i].action == Broadcast ==> n.state == Joined)
    && (op.Send? && s.state == Joined ==> n.sent == s.sent + [op.message])
    && (op.Ack? && n.state == Joined && s.state != Joined ==> n.sent == s.sent + s.queue)
  }

  lemma OnlyJoinedSends(s: State, op: Op, id: string)
    requires Sound(s) && Enabled(s, op)
    ensures SendsRight(s, Step(s, op, id), op)
  {
    match op
    case Ack(requestId) => AckSends(s, requestId);
    case ConnectionOp(c) => ConnectionSends(s, c, id);
    case Send(m) => SendSends(s, m);
    case Fire(t) =>
    case Refuse(_, _) =>
    case _ => JoinLeaveSends(s, op, id);
  }

  lemma AckSends(s: State, requestId: string)
    requires Sound(s) && s.connection == Connected
    ensures SendsRight(s, Acknowledge(s, requestId), Ack(requestId))
  {}

  lemma ConnectionSends(s: State, c: Connection, id: string)
    requires Sound(s)
    ensures SendsRight(s, OnConnection(s, c, id), ConnectionOp(c))
  {
    var n := Follow(s.(connection := c), id);
    assert s.sent <= n.sent && (n.sent == s.sent || IsJoin(n.sent[|s.sent|]));
  }

  lemma SendSends(s: State, m: Message)
    requires Sound(s)
    ensures SendsRight(s, Publish(s, m).0, Send(m))
  {}

  lemma JoinLeaveSends(s: State, op: Op, id: string)
    requires Sound(s) && Enabled(s, op) && (op.JoinOp? || op.LeaveOp?)
    ensures SendsRight(s, Step(s, op, id), op)
  {}

  // ---------- the same laws in every run ----------

  predicate Reached(s: State, start: State, ops: seq<(Op, string)>) {
    start == Fresh(start.joinParams, start.maxQueueSize, start.connection) && Runs(start, ops) && s == After(start, ops)
  }

  lemma ReachedSound(s: State, start: State, ops: seq<(Op, string)>)
    requires Reached(s, start, ops)
    ensures Sound(s)
  {
    FreshSound(start.joinParams, start.maxQueueSize, start.connection);
    RunSound(start, ops);
  }

  lemma AnswersInRuns(s: State, start: State, ops: seq<(Op, string)>, op: Op, id: string)
    requires Reached(s, start, ops) && Enabled(s, op) && (op.Ack? || op.Refuse?)
    ensures Step(s, op, id).state != s.state
       <==> AwaitsJoin(s) && (op.requestId == "" || s.pending == Some(op.requestId))
  {
    ReachedSound(s, start, ops);
    OnlyCurrentAnswers(s, op, id);
  }

  lemma TimeLimitsInRuns(s: State, start: State, ops: seq<(Op, string)>, t: nat)
    requires Reached(s, start, ops) && t in s.timers
    ensures s.pending == Some(s.timers[t]) && AwaitsJoin(s) && TimerFires(s, t).state == Declined
  {
    ReachedSound(s, start, ops);
    TimeLimitDeclines(s, t);
  }

  lemma ReconnectsInRuns(s: State, start: State, ops: seq<(Op, string)>, id: string)
    requires Reached(s, start, ops) && s.connection != Connected && id != ""
    ensures (exists m :: OnConnection(s, Connected, id).sent == s.sent + [m] && IsJoin(m) && m.requestId == id)
       <==> s.state == Stalled || (s.state == Joining && s.waiting)
  {
    ReachedSound(s, start, ops);
    RepeatedOnReconnect(s, id);
  }

  lemma SendsInRuns(s: State, start: State, ops: seq<(Op, string)>, op: Op, id: string)
    requires Reached(s, start, ops) && Enabled(s, op)
    ensures SendsRight(s, Step(s, op, id), op)
  {
    ReachedSound(s, start, ops);
    OnlyJoinedSends(s, op, id);
  }
}
