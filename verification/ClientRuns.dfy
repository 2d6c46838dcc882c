/** Runs of one client channel: what it puts on the wire, and where every message it accepted ends up. A change of
    the connection and the channel's reaction to it are one step. */
module ClientRuns {
  import opened Json
  import opened ClientSpec

  datatype Op =
    | JoinOp
    | LeaveOp
    | Send(event: string, payload: Object)
    | Request(event: string, payload: Object)
    | GiveUp(id: string)
    | Dial                                  // a connection attempt starts
    | OpenOp
    | WriterDies                            // the connection stops taking messages before it is known to be lost
    | LoseOp
    | DisconnectOp
    | Receive(message: ServerMessage)

  /** A connection is never made with a size limit of 0: making its channel of outgoing messages panics. */
  predicate Enabled(s: Session, op: Op) {
    match op
    case Dial => s.connection == Disconnected
    case OpenOp => s.connection != Connected && s.maxQueueSize > 0
    case LoseOp => s.connection == Connected
    case Receive(_) => s.connection == Connected
    case _ => true
  }

  function Step(s: Session, op: Op, id: string): Session {
    match op
    case JoinOp => Join(s, id)
    case LeaveOp => Leave(s, id)
    case Send(event, payload) => SendMessage(s, event, payload, id)
    case Request(event, payload) => SendForResponse(s, event, payload, id)
    case GiveUp(request) => StopWaiting(s, request)
    case Dial => s.(connection := Connecting)
    case OpenOp => Open(s, id)
    case WriterDies => s.(outbound := false)
    case LoseOp => Lose(s)
    case DisconnectOp => Disconnect(s)
    case Receive(m) => HandleEvent(s, m)
  }

  // ---------- the order of frames ----------

  datatype Phase = NoJoin | Asked | Confirmed

  /** How far the join got since the connection was opened. */
  function PhaseOf(wire: seq<Frame>): Phase
    decreases |wire|
  {
    if wire == [] then NoJoin
    else
      var before := PhaseOf(wire[..|wire| - 1]);
      match wire[|wire| - 1]
      case Opened => NoJoin
      case Sent(m) => if m.action == JoinChannel then Asked else before
      case Acked => if before == Asked then Confirmed else before
  }

  /** A join is only sent once a connection, and a broadcast only after the join was acknowledged. */
  predicate Orderly(wire: seq<Frame>)
    decreases |wire|
  {
    wire == [] ||
    (Orderly(wire[..|wire| - 1]) &&
     (wire[|wire| - 1].Sent? ==>
        match wire[|wire| - 1].message.action
        case JoinChannel => PhaseOf(wire[..|wire| - 1]) == NoJoin
        case Broadcast => PhaseOf(wire[..|wire| - 1]) == Confirmed
        case LeaveChannel => true))
  }

  lemma OneFrame(wire: seq<Frame>, f: Frame)
    ensures Orderly(wire + [f]) <==>
              Orderly(wire)
              && (f.Sent? && f.message.action == JoinChannel ==> PhaseOf(wire) == NoJoin)
              && (f.Sent? && f.message.action == Broadcast ==> PhaseOf(wire) == Confirmed)
    ensures PhaseOf(wire + [f]) ==
            match f
            case Opened => NoJoin
            case Sent(m) => if m.action == JoinChannel then Asked else PhaseOf(wire)
            case Acked => if PhaseOf(wire) == Asked then Confirmed else PhaseOf(wire)
  {
    assert (wire + [f])[..|wire|] == wire;
  }

  predicate IsJoin(f: Frame) {
    f.Sent? && f.message.action == JoinChannel
  }

  predicate IsCast(f: Frame) {
    f.Sent? && f.message.action == Broadcast
  }

  predicate NoOpening(wire: seq<Frame>, i: nat, j: nat)
    requires i <= j <= |wire|
  {
    forall k :: i <= k < j ==> wire[k] != Opened
  }

  /** What the phase says about the frames of the current connection. */
  ghost predicate PhaseMeans(wire: seq<Frame>, phase: Phase) {
    match phase
    case NoJoin => forall i :: 0 <= i < |wire| && IsJoin(wire[i]) ==> !NoOpening(wire, i, |wire|)
    case Asked => exists i :: 0 <= i < |wire| && IsJoin(wire[i]) && NoOpening(wire, i, |wire|)
    case Confirmed => JoinedBefore(wire, |wire|)
  }

  /** A join and then its acknowledgement passed on the connection that is open at position `j`. */
  ghost predicate JoinedBefore(wire: seq<Frame>, j: nat)
    requires j <= |wire|
  {
    exists i, k :: 0 <= i < k < j && IsJoin(wire[i]) && wire[k] == Acked && NoOpening(wire, i, j)
  }

  lemma {:induction false} PhaseIsRight(wire: seq<Frame>)
    ensures PhaseMeans(wire, PhaseOf(wire))
    decreases |wire|
  {
    if wire != [] {
      var n := |wire| - 1;
      var before := wire[..n];
      PhaseIsRight(before);
      if wire[n] == Opened {
        forall i | 0 <= i < |wire| && IsJoin(wire[i]) ensures !NoOpening(wire, i, |wire|) { assert wire[n] == Opened; }
      } else if IsJoin(wire[n]) {
        assert NoOpening(wire, n, |wire|);
      } else if PhaseOf(before) == NoJoin {
        forall i | 0 <= i < |wire| && IsJoin(wire[i]) ensures !NoOpening(wire, i, |wire|) {
          assert IsJoin(before[i]);
          var k :| i <= k < n && before[k] == Opened;
          assert wire[k] == Opened;
        }
      } else {
        PhaseCarries(wire);
      }
    }
  }

  lemma PhaseCarries(wire: seq<Frame>)
    requires wire != [] && wire[|wire| - 1] != Opened && !IsJoin(wire[|wire| - 1])
    requires PhaseOf(wire[..|wire| - 1]) != NoJoin && PhaseMeans(wire[..|wire| - 1], PhaseOf(wire[..|wire| - 1]))
    ensures PhaseMeans(wire, PhaseOf(wire))
  {
    var phase := PhaseOf(wire[..|wire| - 1]);
    if phase == Asked { AskedCarries(wire); } else { ConfirmedCarries(wire); }
  }

  lemma AskedCarries(wire: seq<Frame>)
    requires wire != [] && wire[|wire| - 1] != Opened && PhaseMeans(wire[..|wire| - 1], Asked)
    ensures PhaseMeans(wire, Asked) && (wire[|wire| - 1] == Acked ==> PhaseMeans(wire, Confirmed))
  {
    var n := |wire| - 1;
    var before := wire[..n];
    var i :| 0 <= i < n && IsJoin(before[i]) && NoOpening(before, i, n);
    assert IsJoin(wire[i]) && NoOpening(wire, i, |wire|);
  }

  lemma ConfirmedCarries(wire: seq<Frame>)
    requires wire != [] && wire[|wire| - 1] != Opened && PhaseMeans(wire[..|wire| - 1], Confirmed)
    ensures PhaseMeans(wire, Confirmed)
  {
    var n := |wire| - 1;
    var before := wire[..n];
    var i, k :| 0 <= i < k < n && IsJoin(before[i]) && before[k] == Acked && NoOpening(before, i, n);
    assert IsJoin(wire[i]) && wire[k] == Acked && NoOpening(wire, i, |wire|);
  }

  lemma {:induction false} OrderlyPrefix(wire: seq<Frame>, n: nat)
    requires Orderly(wire) && n <= |wire|
    ensures Orderly(wire[..n])
    decreases |wire|
  {
    if n < |wire| {
      OrderlyPrefix(wire[..|wire| - 1], n);
      assert wire[..|wire| - 1][..n] == wire[..n];
    } else {
      assert wire[..n] == wire;
    }
  }

  /** In an orderly record, between two joins there is a new connection, and before a broadcast there are a join
      and an acknowledgement on the same connection. */
  lemma OrderlyMeans(wire: seq<Frame>, j: nat)
    requires Orderly(wire) && j < |wire|
    ensures IsJoin(wire[j]) ==> forall i :: 0 <= i < j && IsJoin(wire[i]) ==> !NoOpening(wire, i, j)
    ensures IsCast(wire[j]) ==> JoinedBefore(wire, j)
  {
    var before := wire[..j];
    OrderlyPrefix(wire, j + 1);
    assert wire[..j + 1][..j] == before;
    PhaseIsRight(before);
    if IsJoin(wire[j]) {
      forall i | 0 <= i < j && IsJoin(wire[i]) ensures !NoOpening(wire, i, j) {
        assert IsJoin(before[i]);
        var k :| i <= k < j && before[k] == Opened;
        assert wire[k] == Opened;
      }
    }
    if IsCast(wire[j]) {
      var i, k :| 0 <= i < k < j && IsJoin(before[i]) && before[k] == Acked && NoOpening(before, i, j);
      assert IsJoin(wire[i]) && wire[k] == Acked && NoOpening(wire, i, j);
    }
  }

  // ---------- the broadcasts of a record and of a queue ----------

  function CastsOn(wire: seq<Frame>): seq<Message>
    decreases |wire|
  {
    if wire == [] then []
    else
      var last := wire[|wire| - 1];
      CastsOn(wire[..|wire| - 1]) + if last.Sent? && last.message.action == Broadcast then [last.message] else []
  }

  lemma OneCast(wire: seq<Frame>, f: Frame)
    ensures CastsOn(wire + [f]) == CastsOn(wire) + if IsCast(f) then [f.message] else []
  {
    assert (wire + [f])[..|wire|] == wire;
  }

  function Casts(queue: seq<Message>): seq<Message> {
    if queue == [] then []
    else (if queue[0].action == Broadcast then [queue[0]] else []) + Casts(queue[1..])
  }

  lemma {:induction false} CastsAppend(a: seq<Message>, b: seq<Message>)
    ensures Casts(a + b) == Casts(a) + Casts(b)
  {
    if a == [] {
      assert a + b == b;
    } else {
      assert (a + b)[1..] == a[1..] + b;
      CastsAppend(a[1..], b);
    }
  }

  lemma {:induction false} CastsOfRetained(queue: seq<Message>)
    ensures Casts(WithoutJoins(queue)) == Casts(queue)
    ensures |WithoutJoins(queue)| <= |queue|
    ensures forall m <- WithoutJoins(queue) :: m in queue && m.action != JoinChannel
  {
    if queue != [] {
      CastsOfRetained(queue[1..]);
      var kept := if queue[0].action == JoinChannel then [] else [queue[0]];
      CastsAppend(kept, WithoutJoins(queue[1..]));
    }
  }

  predicate OnlyCasts(queue: seq<Message>) {
    forall m <- queue :: m.action == Broadcast
  }

  lemma SentAllSplit(wire: seq<Frame>, queue: seq<Message>)
    requires queue != []
    ensures wire + SentAll(queue) == (wire + [Sent(queue[0])]) + SentAll(queue[1..])
  {}

  lemma {:induction false} DrainOrderly(wire: seq<Frame>, queue: seq<Message>)
    requires Orderly(wire) && PhaseOf(wire) == Confirmed && OnlyCasts(queue)
    ensures Orderly(wire + SentAll(queue)) && PhaseOf(wire + SentAll(queue)) == Confirmed
    decreases |queue|
  {
    if queue == [] {
      assert wire + SentAll(queue) == wire;
    } else {
      var m := queue[0];
      OneFrame(wire, Sent(m));
      assert m in queue;
      DrainOrderly(wire + [Sent(m)], queue[1..]);
      SentAllSplit(wire, queue);
    }
  }

  lemma Grouped(a: seq<Message>, b: seq<Message>, c: seq<Message>)
    ensures a + b + c == a + (b + c)
  {}

  lemma CastsHead(queue: seq<Message>)
    requires queue != []
    ensures Casts(queue) == Casts([queue[0]]) + Casts(queue[1..])
    ensures Casts([queue[0]]) == if queue[0].action == Broadcast then [queue[0]] else []
  {}

  lemma {:induction false} DrainCasts(wire: seq<Frame>, queue: seq<Message>)
    ensures CastsOn(wire + SentAll(queue)) == CastsOn(wire) + Casts(queue)
    decreases |queue|
  {
    if queue == [] {
      assert wire + SentAll(queue) == wire;
    } else {
      var f := Sent(queue[0]);
      DrainCasts(wire + [f], queue[1..]);
      SentAllSplit(wire, queue);
      assert CastsOn(wire + [f]) == CastsOn(wire) + Casts([queue[0]]) by {
        OneCast(wire, f);
        CastsHead(queue);
      }
      CastsHead(queue);
      Grouped(CastsOn(wire), Casts([queue[0]]), Casts(queue[1..]));
    }
  }

  // ---------- the invariant of a session ----------

  predicate NoJoinsIn(queue: seq<Message>) {
    forall m <- queue :: m.action != JoinChannel
  }

  predicate Sound(s: Session) {
    && Orderly(s.wire)
    && (s.closed <==> s.state == Closed)
    && (s.closed ==> s.queue == [] && s.pending == {})
    && (s.outbound ==> s.connection == Connected)
    && (s.connection == Connected ==> s.state != Stalled)
    && (s.connection != Connected ==> s.state != Joined)
    && (forall m <- s.queue :: m.action != LeaveChannel)
    && (s.outbound || (s.state != Joining && s.state != Stalled) ==> NoJoinsIn(s.queue))
    && (s.outbound ==> PhaseFits(s))
  }

  /** While messages can be sent, the state tells how far the join got on this connection. */
  predicate PhaseFits(s: Session) {
    && (s.state == Idle ==> PhaseOf(s.wire) == NoJoin)
    && (s.state == Joining ==> PhaseOf(s.wire) == Asked)
    && (s.state == Joined ==> PhaseOf(s.wire) == Confirmed && s.queue == [])
  }

  lemma NewSound(params: Object, maxQueueSize: nat, connection: Connection, outbound: bool)
    requires outbound ==> connection == Connected
    ensures Sound(NewChannel(params, maxQueueSize, connection, outbound, []))
  {}

  lemma PushedMembers(s: Session, m: Message)
    ensures forall x <- Pushed(s.queue, s.maxQueueSize, m) :: x in s.queue || x == m
  {}

  lemma JoinSound(s: Session, id: string)
    requires Sound(s)
    ensures Sound(Join(s, id))
  {
    var m := JoinMessage(s.params, id);
    OneFrame(s.wire, Sent(m));
    PushedMembers(s, m);
  }

  lemma CastSound(s: Session, m: Message)
    requires Sound(s) && !s.closed && m.action == Broadcast
    ensures Sound(EnqueueOrSend(s, m))
  {
    OneFrame(s.wire, Sent(m));
    PushedMembers(s, m);
  }

  lemma LeaveSound(s: Session, id: string)
    requires Sound(s)
    ensures Sound(Leave(s, id))
  {
    OneFrame(s.wire, Sent(LeaveMessage(id)));
  }

  lemma OpenSound(s: Session, id: string)
    requires Sound(s) && s.connection != Connected
    ensures Sound(Open(s, id))
  {
    OneFrame(s.wire, Opened);
    var up := s.(connection := Connected, outbound := true, wire := s.wire + [Opened]);
    if !up.closed && (up.state == Stalled || up.state == Joining) {
      CastsOfRetained(s.queue);
      OneFrame(up.wire, Sent(JoinMessage(s.params, id)));
    }
  }

  lemma ReceiveSound(s: Session, m: ServerMessage)
    requires Sound(s) && s.connection == Connected
    ensures Sound(HandleEvent(s, m))
  {
    if !s.closed && m.system && m.event == Acknowledge {
      OneFrame(s.wire, Acked);
      if AwaitsJoin(s) {
        if s.outbound {
          DrainOrderly(s.wire + [Acked], s.queue);
        } else {
          assert s.wire + [Acked] + [] == s.wire + [Acked];
        }
      }
    }
  }

  lemma StepSound(s: Session, op: Op, id: string)
    requires Sound(s) && Enabled(s, op)
    ensures Sound(Step(s, op, id))
  {
    match op
    case JoinOp => JoinSound(s, id);
    case LeaveOp => LeaveSound(s, id);
    case Send(event, payload) => if !s.closed { CastSound(s, Message(Broadcast, event, payload, id)); }
    case Request(event, payload) =>
      if !s.closed { CastSound(s.(pending := s.pending + {id}), Message(Broadcast, event, payload, id)); }
    case OpenOp => OpenSound(s, id);
    case Receive(m) => ReceiveSound(s, m);
    case _ =>
  }

  // ---------- where accepted messages end up ----------

  datatype Cause = Overflow | WasClosed | WasDeclined | NotWritten
  datatype Loss = Loss(message: Message, cause: Cause)

  /** The history of a channel: the broadcasts it accepted, the ones it lost and why, and the ids used so far. */
  datatype History = History(accepted: seq<Message>, lost: seq<Loss>, used: set<string>, requested: set<string>)

  const NOTHING := History([], [], {}, {})

  function Accepted(s: Session, op: Op, id: string): seq<Message> {
    if s.closed then []
    else match op
         case Send(event, payload) => [Message(Broadcast, event, payload, id)]
         case Request(event, payload) => [Message(Broadcast, event, payload, id)]
         case _ => []
  }

  function Because(messages: seq<Message>, cause: Cause): (lost: seq<Loss>)
    ensures |lost| == |messages|
    ensures forall i :: 0 <= i < |messages| ==> lost[i] == Loss(messages[i], cause)
  {
    seq(|messages|, i requires 0 <= i < |messages| => Loss(messages[i], cause))
  }

  /** Only the oldest message of a full queue gives way, and only to one that cannot be sent now. */
  function Overflowed(s: Session, m: Message): seq<Loss> {
    if !SendsNow(s, m) && s.queue != [] && |s.queue| == s.maxQueueSize then Because(Casts([s.queue[0]]), Overflow) else []
  }

  function Lost(s: Session, op: Op, id: string): seq<Loss> {
    if s.closed then []
    else match op
         case JoinOp =>
           if s.state == Idle || s.state == Stalled
           then Overflowed(s.(state := Joining), JoinMessage(s.params, id)) else []
         case Send(event, payload) => Overflowed(s, Message(Broadcast, event, payload, id))
         case Request(event, payload) => Overflowed(s, Message(Broadcast, event, payload, id))
         case LeaveOp => Because(Casts(s.queue), WasClosed)
         case DisconnectOp => Because(Casts(s.queue), WasClosed)
         case Receive(m) =>
           if !m.system then []
           else if m.event == Evicted then Because(Casts(s.queue), WasClosed)
           else if !AwaitsJoin(s) then []
           else if m.event == Acknowledge && !s.outbound then Because(Casts(s.queue), NotWritten)
           else if m.event == Unauthorized || m.event == NotFound then Because(Casts(s.queue), WasDeclined)
           else []
         case _ => []
  }

  function Recorded(h: History, s: Session, op: Op, id: string): History {
    History(h.accepted + Accepted(s, op, id), h.lost + Lost(s, op, id), h.used + {id},
            if op.Request? && !s.closed then h.requested + {id} else h.requested)
  }

  function Messages(lost: seq<Loss>): (ms: seq<Message>)
    ensures |ms| == |lost|
    ensures forall i :: 0 <= i < |lost| ==> ms[i] == lost[i].message
  {
    seq(|lost|, i requires 0 <= i < |lost| => lost[i].message)
  }

  /** On the wire and then in the queue, in this order. */
  function Held(s: Session): seq<Message> {
    CastsOn(s.wire) + Casts(s.queue)
  }

  /** Nothing accepted is forgotten or made up: it is on the wire, in the queue, or lost. */
  predicate Conserved(s: Session, h: History) {
    multiset(h.accepted) == multiset(Held(s)) + multiset(Messages(h.lost))
  }

  /** `a` is `b` with some elements left out. */
  predicate IsPartOf(a: seq<Message>, b: seq<Message>)
    decreases |b|
  {
    a == [] ||
    (b != [] &&
     ((a[|a| - 1] == b[|b| - 1] && IsPartOf(a[..|a| - 1], b[..|b| - 1])) || IsPartOf(a, b[..|b| - 1])))
  }

  lemma PartAppend(a: seq<Message>, b: seq<Message>, m: Message)
    requires IsPartOf(a, b)
    ensures IsPartOf(a + [m], b + [m])
  {
    assert (a + [m])[..|a|] == a && (b + [m])[..|b|] == b;
  }

  lemma {:induction false} PartOmit(a: seq<Message>, m: Message, c: seq<Message>, b: seq<Message>)
    requires IsPartOf(a + [m] + c, b)
    ensures IsPartOf(a + c, b)
    decreases |b|
  {
    var all := a + [m] + c;
    var last := b[..|b| - 1];
    if all[|all| - 1] == b[|b| - 1] && IsPartOf(all[..|all| - 1], last) {
      if c == [] {
        assert all[..|all| - 1] == a + c;
        if a + c != [] { assert IsPartOf(a + c, last); }
      } else {
        var c' := c[..|c| - 1];
        assert all[..|all| - 1] == a + [m] + c';
        PartOmit(a, m, c', last);
        assert (a + c)[..|a + c| - 1] == a + c';
      }
    } else {
      PartOmit(a, m, c, last);
    }
  }

  lemma {:induction false} PartOmitAll(a: seq<Message>, out: seq<Message>, c: seq<Message>, b: seq<Message>)
    requires IsPartOf(a + out + c, b)
    ensures IsPartOf(a + c, b)
    decreases |out|
  {
    if out == [] {
      assert a + out + c == a + c;
    } else {
      assert a + out + c == a + [out[0]] + (out[1..] + c);
      PartOmit(a, out[0], out[1..] + c, b);
      assert a + (out[1..] + c) == a + out[1..] + c;
      PartOmitAll(a, out[1..], c, b);
    }
  }

  /** How a step moves messages: behind those on the wire some are lost, the rest stays in order, and what the
      step accepts comes last. */
  ghost predicate Moves(s: Session, op: Op, id: string, rest: seq<Message>) {
    && Held(s) == CastsOn(s.wire) + Messages(Lost(s, op, id)) + rest
    && Held(Step(s, op, id)) == CastsOn(s.wire) + rest + Accepted(s, op, id)
  }

  /** The messages of the queue that a new one leaves there. */
  function Spared(queue: seq<Message>, maxQueueSize: nat): seq<Message> {
    if queue != [] && |queue| == maxQueueSize then queue[1..] else queue
  }

  lemma MessagesOf(messages: seq<Message>, cause: Cause)
    ensures Messages(Because(messages, cause)) == messages
  {}

  lemma QueuedMoves(s: Session, m: Message)
    requires !SendsNow(s, m)
    ensures var rest := Casts(Spared(s.queue, s.maxQueueSize));
            && Casts(s.queue) == Messages(Overflowed(s, m)) + rest
            && Casts(Pushed(s.queue, s.maxQueueSize, m)) == rest + Casts([m])
  {
    CastsAppend(Spared(s.queue, s.maxQueueSize), [m]);
    if s.queue != [] && |s.queue| == s.maxQueueSize {
      CastsHead(s.queue);
      MessagesOf(Casts([s.queue[0]]), Overflow);
    }
  }

  lemma SentMoves(s: Session, m: Message)
    requires SendsNow(s, m) && (m.action == Broadcast ==> s.queue == []) && m.action != LeaveChannel
    ensures Held(EnqueueOrSend(s, m)) == Held(s) + Casts([m]) && Overflowed(s, m) == []
  {
    OneCast(s.wire, Sent(m));
  }

  lemma EnqueueMoves(s: Session, m: Message) returns (rest: seq<Message>)
    requires SendsNow(s, m) && m.action == Broadcast ==> s.queue == []
    requires m.action != LeaveChannel
    ensures Held(s) == CastsOn(s.wire) + Messages(Overflowed(s, m)) + rest
    ensures Held(EnqueueOrSend(s, m)) == CastsOn(s.wire) + rest + Casts([m])
  {
    if SendsNow(s, m) {
      SentMoves(s, m);
      rest := Casts(s.queue);
    } else {
      QueuedMoves(s, m);
      rest := Casts(Spared(s.queue, s.maxQueueSize));
    }
  }

  lemma JoinMoves(s: Session, id: string) returns (rest: seq<Message>)
    requires Sound(s)
    ensures Moves(s, JoinOp, id, rest)
  {
    rest := Casts(s.queue);
    if s.state == Idle || s.state == Stalled {
      rest := EnqueueMoves(s.(state := Joining), JoinMessage(s.params, id));
    }
  }

  lemma CastMoves(s: Session, op: Op, id: string) returns (rest: seq<Message>)
    requires Sound(s) && (op.Send? || op.Request?)
    ensures Moves(s, op, id, rest)
  {
    rest := Casts(s.queue);
    if !s.closed {
      rest := EnqueueMoves(s, Message(Broadcast, op.event, op.payload, id));
    }
  }

  lemma CloseMoves(s: Session, op: Op, id: string)
    requires Sound(s) && (op.LeaveOp? || op.DisconnectOp? || (op.Receive? && op.message.system && op.message.event == Evicted))
    ensures Moves(s, op, id, [])
  {
    OneCast(s.wire, Sent(LeaveMessage(id)));
    MessagesOf(Casts(s.queue), WasClosed);
  }

  predicate Rejoins(s: Session) {
    !s.closed && (s.state == Stalled || s.state == Joining)
  }

  lemma OpenShape(s: Session, id: string)
    ensures Rejoins(s) ==> Open(s, id).wire == s.wire + [Opened] + [Sent(JoinMessage(s.params, id))]
                           && Open(s, id).queue == WithoutJoins(s.queue)
    ensures !Rejoins(s) ==> Open(s, id).wire == s.wire + [Opened] && Open(s, id).queue == s.queue
  {}

  lemma OpenCasts(s: Session, id: string)
    ensures CastsOn(Open(s, id).wire) == CastsOn(s.wire)
  {
    var join := Sent(JoinMessage(s.params, id));
    OneCast(s.wire, Opened);
    OneCast(s.wire + [Opened], join);
    OpenShape(s, id);
  }

  lemma OpenQueue(s: Session, id: string)
    ensures Casts(Open(s, id).queue) == Casts(s.queue)
  {
    OpenShape(s, id);
    CastsOfRetained(s.queue);
  }

  lemma OpenMoves(s: Session, id: string)
    ensures Moves(s, OpenOp, id, Casts(s.queue))
  {
    OpenCasts(s, id);
    OpenQueue(s, id);
  }

  predicate IsAck(op: Op) {
    op.Receive? && op.message.system && op.message.event == Acknowledge
  }

  /** What an acknowledgement does: nothing to a closed session; else it is recorded, and when awaited the queue goes
      out, or is lost when nothing can be written. */
  lemma AckShape(s: Session, op: Op, id: string)
    requires IsAck(op)
    ensures var t, lost := Step(s, op, id), Lost(s, op, id);
            && Accepted(s, op, id) == []
            && t.wire == s.wire + (if s.closed then [] else [Acked]) + (if Drains(s) then SentAll(s.queue) else [])
            && t.queue == (if !s.closed && AwaitsJoin(s) then [] else s.queue)
            && lost == (if !s.closed && AwaitsJoin(s) && !s.outbound then Because(Casts(s.queue), NotWritten) else [])
  {}

  predicate Drains(s: Session) {
    !s.closed && AwaitsJoin(s) && s.outbound
  }

  lemma AckDrains(s: Session, op: Op, id: string)
    requires IsAck(op) && Drains(s)
    ensures Moves(s, op, id, Casts(s.queue))
  {
    AckShape(s, op, id);
    OneCast(s.wire, Acked);
    DrainCasts(s.wire + [Acked], s.queue);
  }

  lemma AckLoses(s: Session, op: Op, id: string)
    requires IsAck(op) && !s.closed && AwaitsJoin(s) && !s.outbound
    ensures Moves(s, op, id, [])
  {
    AckShape(s, op, id);
    OneCast(s.wire, Acked);
    assert s.wire + [Acked] + [] == s.wire + [Acked];
    MessagesOf(Casts(s.queue), NotWritten);
  }

  lemma AckKeeps(s: Session, op: Op, id: string)
    requires IsAck(op) && (s.closed || !AwaitsJoin(s))
    ensures Moves(s, op, id, Casts(s.queue))
  {
    AckShape(s, op, id);
    OneCast(s.wire, Acked);
    assert s.wire + [] + [] == s.wire && s.wire + [Acked] + [] == s.wire + [Acked];
  }

  lemma AckMoves(s: Session, op: Op, id: string) returns (rest: seq<Message>)
    requires IsAck(op)
    ensures Moves(s, op, id, rest)
  {
    rest := Casts(s.queue);
    if s.closed || !AwaitsJoin(s) {
      AckKeeps(s, op, id);
    } else if s.outbound {
      AckDrains(s, op, id);
    } else {
      rest := [];
      AckLoses(s, op, id);
    }
  }

  lemma OtherMessageMoves(s: Session, op: Op, id: string) returns (rest: seq<Message>)
    requires Sound(s) && op.Receive? && !(op.message.system && (op.message.event == Acknowledge || op.message.event == Evicted))
    ensures Moves(s, op, id, rest)
  {
    rest := Casts(s.queue);
    if !s.closed && op.message.system && (op.message.event == Unauthorized || op.message.event == NotFound) && AwaitsJoin(s) {
      MessagesOf(Casts(s.queue), WasDeclined);
      rest := [];
    }
  }

  lemma StepMoves(s: Session, op: Op, id: string) returns (rest: seq<Message>)
    requires Sound(s) && Enabled(s, op)
    ensures Moves(s, op, id, rest)
  {
    rest := Casts(s.queue);
    match op
    case JoinOp => rest := JoinMoves(s, id);
    case LeaveOp => CloseMoves(s, op, id); rest := [];
    case Send(_, _) => rest := CastMoves(s, op, id);
    case Request(_, _) => rest := CastMoves(s, op, id);
    case OpenOp => OpenMoves(s, id);
    case DisconnectOp => CloseMoves(s, op, id); rest := [];
    case Receive(m) =>
      if m.system && m.event == Evicted { CloseMoves(s, op, id); rest := []; }
      else if m.system && m.event == Acknowledge { rest := AckMoves(s, op, id); }
      else { rest := OtherMessageMoves(s, op, id); }
    case _ =>
  }

  // ---------- the invariant of a history ----------

  predicate DistinctIds(messages: seq<Message>) {
    forall i, j :: 0 <= i < j < |messages| ==> messages[i].requestId != messages[j].requestId
  }

  predicate RequestsRight(s: Session, h: History) {
    && s.pending <= h.requested <= h.used
    && (forall i :: 0 <= i < |s.answered| ==> s.answered[i].0 in h.requested && s.answered[i].0 !in s.pending)
    && (forall i, j :: 0 <= i < j < |s.answered| ==> s.answered[i].0 != s.answered[j].0)
  }

  predicate HistoryRight(s: Session, h: History) {
    && Conserved(s, h)
    && IsPartOf(Held(s), h.accepted)
    && DistinctIds(h.accepted)
    && (forall m <- h.accepted :: m.requestId in h.used)
    && RequestsRight(s, h)
    && (s.maxQueueSize > 0 ==> |s.queue| <= s.maxQueueSize)
  }

  /** What a step may do to the requests: one more waits, some stop waiting, or a waiting one is answered. */
  predicate RequestsMove(s: Session, t: Session, op: Op, id: string) {
    if t.answered == s.answered then t.pending <= s.pending + (if op.Request? && !s.closed then {id} else {})
    else
      && op.Receive? && op.message.requestId in s.pending && t.pending == s.pending - {op.message.requestId}
      && t.answered == s.answered + [(op.message.requestId, op.message.payload)]
  }

  lemma EnqueueFrame(s: Session, m: Message)
    ensures var t := EnqueueOrSend(s, m);
            && t.pending == s.pending && t.answered == s.answered && t.maxQueueSize == s.maxQueueSize
            && (s.maxQueueSize > 0 && |s.queue| <= s.maxQueueSize ==> |t.queue| <= s.maxQueueSize)
  {}

  lemma JoinFrame(s: Session, id: string)
    ensures var t := Join(s, id);
            && t.pending == s.pending && t.answered == s.answered && t.maxQueueSize == s.maxQueueSize
            && (s.maxQueueSize > 0 && |s.queue| <= s.maxQueueSize ==> |t.queue| <= s.maxQueueSize)
  {
    EnqueueFrame(s.(state := Joining), JoinMessage(s.params, id));
  }

  lemma OpenFrame(s: Session, id: string)
    ensures var t := Open(s, id);
            && t.pending == s.pending && t.answered == s.answered && t.maxQueueSize == s.maxQueueSize
            && (s.maxQueueSize > 0 && |s.queue| <= s.maxQueueSize ==> |t.queue| <= s.maxQueueSize)
  {
    CastsOfRetained(s.queue);
    var up := s.(connection := Connected, outbound := true, wire := s.wire + [Opened]);
    JoinFrame(up.(queue := WithoutJoins(s.queue), state := Stalled), id);
  }

  lemma ReceiveFrame(s: Session, m: ServerMessage, id: string)
    ensures var t := HandleEvent(s, m);
            && RequestsMove(s, t, Receive(m), id) && t.maxQueueSize == s.maxQueueSize && |t.queue| <= |s.queue|
  {}

  lemma StepFrame(s: Session, op: Op, id: string)
    ensures var t := Step(s, op, id);
            && RequestsMove(s, t, op, id) && t.maxQueueSize == s.maxQueueSize
            && (s.maxQueueSize > 0 && |s.queue| <= s.maxQueueSize ==> |t.queue| <= s.maxQueueSize)
  {
    match op
    case JoinOp => JoinFrame(s, id);
    case Send(event, payload) => EnqueueFrame(s, Message(Broadcast, event, payload, id));
    case Request(event, payload) =>
      EnqueueFrame(s.(pending := s.pending + {id}), Message(Broadcast, event, payload, id));
    case OpenOp => OpenFrame(s, id);
    case Receive(m) => ReceiveFrame(s, m, id);
    case _ =>
  }

  lemma RequestsStep(s: Session, t: Session, h: History, k: History, op: Op, id: string)
    requires RequestsRight(s, h) && RequestsMove(s, t, op, id) && id !in h.used
    requires k.used == h.used + {id} && k.requested == if op.Request? && !s.closed then h.requested + {id} else h.requested
    ensures RequestsRight(t, k)
  {}

  lemma AccountSum(accepted: seq<Message>, on: seq<Message>, out: seq<Message>, rest: seq<Message>,
                   lost: seq<Message>, got: seq<Message>)
    requires multiset(accepted) == multiset(on + out + rest) + multiset(lost)
    ensures multiset(accepted + got) == multiset(on + rest + got) + multiset(lost + out)
  {}

  lemma AccountStep(accepted: seq<Message>, on: seq<Message>, out: seq<Message>, rest: seq<Message>,
                    lost: seq<Message>, got: seq<Message>)
    requires multiset(accepted) == multiset(on + out + rest) + multiset(lost)
    requires IsPartOf(on + out + rest, accepted) && |got| <= 1
    ensures multiset(accepted + got) == multiset(on + rest + got) + multiset(lost + out)
    ensures IsPartOf(on + rest + got, accepted + got)
  {
    AccountSum(accepted, on, out, rest, lost, got);
    PartOmitAll(on, out, rest, accepted);
    if got == [] {
      assert on + rest + got == on + rest && accepted + got == accepted;
    } else {
      assert got == [got[0]];
      PartAppend(on + rest, accepted, got[0]);
    }
  }

  lemma AcceptedStep(s: Session, h: History, op: Op, id: string)
    requires Conserved(s, h) && IsPartOf(Held(s), h.accepted) && Sound(s) && Enabled(s, op)
    ensures var h' := Recorded(h, s, op, id); Conserved(Step(s, op, id), h') && IsPartOf(Held(Step(s, op, id)), h'.accepted)
  {
    var rest := StepMoves(s, op, id);
    var out, got := Lost(s, op, id), Accepted(s, op, id);
    LossesAdd(h.lost, out);
    AccountStep(h.accepted, CastsOn(s.wire), Messages(out), rest, Messages(h.lost), got);
  }

  lemma LossesAdd(a: seq<Loss>, b: seq<Loss>)
    ensures Messages(a + b) == Messages(a) + Messages(b)
  {}

  lemma IdsStep(h: seq<Message>, got: seq<Message>, used: set<string>, id: string)
    requires DistinctIds(h) && (forall m <- h :: m.requestId in used) && id !in used
    requires |got| <= 1 && (got != [] ==> got[0].requestId == id)
    ensures DistinctIds(h + got) && forall m <- h + got :: m.requestId in used + {id}
  {
    var all := h + got;
    forall i, j | 0 <= i < j < |all| ensures all[i].requestId != all[j].requestId {
      if j == |h| { assert all[i] in h; }
    }
  }

  lemma HistoryStep(s: Session, h: History, op: Op, id: string)
    requires HistoryRight(s, h) && Sound(s) && Enabled(s, op) && id !in h.used
    ensures HistoryRight(Step(s, op, id), Recorded(h, s, op, id))
  {
    AcceptedStep(s, h, op, id);
    StepFrame(s, op, id);
    IdsStep(h.accepted, Accepted(s, op, id), h.used, id);
    TakenTogether(s, Step(s, op, id), h, Recorded(h, s, op, id), op, id);
  }

  lemma TakenTogether(s: Session, t: Session, h: History, k: History, op: Op, id: string)
    requires RequestsRight(s, h) && RequestsMove(s, t, op, id) && id !in h.used
    requires k.used == h.used + {id} && k.requested == if op.Request? && !s.closed then h.requested + {id} else h.requested
    requires Conserved(t, k) && IsPartOf(Held(t), k.accepted) && DistinctIds(k.accepted)
    requires forall m <- k.accepted :: m.requestId in k.used
    requires t.maxQueueSize > 0 ==> |t.queue| <= t.maxQueueSize
    ensures HistoryRight(t, k)
  {
    RequestsStep(s, t, h, k, op, id);
  }

  // ---------- whole runs ----------

  predicate Runs(s: Session, h: History, ops: seq<(Op, string)>)
    decreases |ops|
  {
    ops == [] ||
    var (op, id) := ops[0];
    Enabled(s, op) && id !in h.used && Runs(Step(s, op, id), Recorded(h, s, op, id), ops[1..])
  }

  function After(s: Session, h: History, ops: seq<(Op, string)>): (Session, History)
    decreases |ops|
  {
    if ops == [] then (s, h) else After(Step(s, ops[0].0, ops[0].1), Recorded(h, s, ops[0].0, ops[0].1), ops[1..])
  }

  lemma {:induction false} RunRight(s: Session, h: History, ops: seq<(Op, string)>)
    requires Sound(s) && HistoryRight(s, h) && Runs(s, h, ops)
    ensures var (t, k) := After(s, h, ops); Sound(t) && HistoryRight(t, k)
    decreases |ops|
  {
    if ops != [] {
      StepSound(s, ops[0].0, ops[0].1);
      HistoryStep(s, h, ops[0].0, ops[0].1);
      RunRight(Step(s, ops[0].0, ops[0].1), Recorded(h, s, ops[0].0, ops[0].1), ops[1..]);
    }
  }

  /** A channel object as `create_channel` makes it, at any moment of the connection. */
  predicate IsNew(s: Session) {
    s == NewChannel(s.params, s.maxQueueSize, s.connection, s.outbound, []) && (s.outbound ==> s.connection == Connected)
  }

  lemma RunFromNew(s: Session, ops: seq<(Op, string)>)
    requires IsNew(s) && Runs(s, NOTHING, ops)
    ensures var (t, k) := After(s, NOTHING, ops); Sound(t) && HistoryRight(t, k)
  {
    NewSound(s.params, s.maxQueueSize, s.connection, s.outbound);
    RunRight(s, NOTHING, ops);
  }

  /** In every run each connection carries at most one join of a channel object, every broadcast comes after the
      join and its acknowledgement on the same connection, and the broadcasts, and behind them the queue, are
      accepted messages in the order they were accepted, none of them twice. */
  lemma WireTrace(s: Session, ops: seq<(Op, string)>)
    requires IsNew(s) && Runs(s, NOTHING, ops)
    ensures
      var (t, h) := After(s, NOTHING, ops);
      && (forall i, j :: 0 <= i < j < |t.wire| && IsJoin(t.wire[i]) && IsJoin(t.wire[j]) ==> !NoOpening(t.wire, i, j))
      && (forall j :: 0 <= j < |t.wire| && IsCast(t.wire[j]) ==> JoinedBefore(t.wire, j))
      && IsPartOf(CastsOn(t.wire) + Casts(t.queue), h.accepted)
      && DistinctIds(h.accepted)
  {
    RunFromNew(s, ops);
    var (t, h) := After(s, NOTHING, ops);
    forall j | 0 <= j < |t.wire|
      ensures IsJoin(t.wire[j]) ==> forall i :: 0 <= i < j && IsJoin(t.wire[i]) ==> !NoOpening(t.wire, i, j)
      ensures IsCast(t.wire[j]) ==> JoinedBefore(t.wire, j)
    {
      OrderlyMeans(t.wire, j);
    }
  }

  /** Every accepted message is on the wire, in the queue, or lost for a recorded cause; a queue with a positive
      size limit keeps to it; and each request is answered at most once, no longer waits after that, and was made
      by this channel. */
  lemma Conservation(s: Session, ops: seq<(Op, string)>)
    requires IsNew(s) && Runs(s, NOTHING, ops)
    ensures
      var (t, h) := After(s, NOTHING, ops);
      && multiset(h.accepted) == multiset(CastsOn(t.wire) + Casts(t.queue)) + multiset(Messages(h.lost))
      && (s.maxQueueSize > 0 ==> |t.queue| <= s.maxQueueSize)
      && (forall i, j :: 0 <= i < j < |t.answered| ==> t.answered[i].0 != t.answered[j].0)
      && (forall i :: 0 <= i < |t.answered| ==> t.answered[i].0 in h.requested - t.pending)
  {
    RunFromNew(s, ops);
    SameMax(s, NOTHING, ops);
  }

  lemma {:induction false} SameMax(s: Session, h: History, ops: seq<(Op, string)>)
    ensures After(s, h, ops).0.maxQueueSize == s.maxQueueSize
    decreases |ops|
  {
    if ops != [] {
      StepFrame(s, ops[0].0, ops[0].1);
      SameMax(Step(s, ops[0].0, ops[0].1), Recorded(h, s, ops[0].0, ops[0].1), ops[1..]);
    }
  }

  /** A size limit of 0 is no limit: the queue of a channel that has not joined grows with every message. */
  lemma NoLimitAtZero(s: Session, event: string, payload: Object, id: string)
    requires !s.closed && s.state != Joined
    ensures |SendMessage(s, event, payload, id).queue| == |s.queue| + 1
       <==> s.maxQueueSize != |s.queue| || s.maxQueueSize == 0
  {}

  /** A client with a size limit of 0, which cannot connect. */
  predicate Offline(s: Session) {
    s.maxQueueSize == 0 && s.connection != Connected && !s.outbound && s.wire == [] && s.state != Joined && s.state != Declined
  }

  lemma OfflineStep(s: Session, op: Op, id: string)
    requires Offline(s) && Enabled(s, op)
    ensures Offline(Step(s, op, id)) && (!Step(s, op, id).closed ==> !s.closed && Lost(s, op, id) == [])
  {}

  lemma {:induction false} OfflineRun(s: Session, h: History, ops: seq<(Op, string)>)
    requires Offline(s) && Runs(s, h, ops) && (!s.closed ==> h.lost == [])
    ensures var (t, k) := After(s, h, ops); Offline(t) && (!t.closed ==> k.lost == [])
    decreases |ops|
  {
    if ops != [] {
      OfflineStep(s, ops[0].0, ops[0].1);
      OfflineRun(Step(s, ops[0].0, ops[0].1), Recorded(h, s, ops[0].0, ops[0].1), ops[1..]);
    }
  }

  /** So with a limit of 0 nothing is ever sent, and until the channel is closed its queue holds everything accepted. */
  lemma ZeroKeepsEverything(s: Session, ops: seq<(Op, string)>)
    requires IsNew(s) && s.maxQueueSize == 0 && s.connection != Connected && Runs(s, NOTHING, ops)
    ensures var (t, h) := After(s, NOTHING, ops);
            t.wire == [] && t.connection != Connected
            && (!t.closed ==> multiset(h.accepted) == multiset(Casts(t.queue)))
  {
    OfflineRun(s, NOTHING, ops);
    Conservation(s, ops);
    var (t, h) := After(s, NOTHING, ops);
    assert CastsOn([]) == [] && CastsOn([]) + Casts(t.queue) == Casts(t.queue);
    if !t.closed { assert Messages([]) == [] && multiset(h.accepted) == multiset(Casts(t.queue)) + multiset{}; }
  }

  /** The state graph: a closed channel stays closed and silent, a declined one can only be closed. */
  predicate MayFollow(before: ChannelState, after: ChannelState) {
    after == before ||
    match before
    case Idle => after == Joining || after == Closed
    case Joining => after == Joined || after == Stalled || after == Declined || after == Closed
    case Joined => after == Stalled || after == Closed
    case Stalled => after == Joining || after == Closed
    case Declined => after == Closed
    case Closed => false
  }

  lemma StateGraph(s: Session, op: Op, id: string)
    requires Sound(s) && Enabled(s, op)
    ensures MayFollow(s.state, Step(s, op, id).state)
    ensures s.state == Closed ==>
              var t := Step(s, op, id);
              (t.wire == s.wire || t.wire == s.wire + [Opened]) && t.queue == [] && t.pending == {} && t.events == s.events
  {}

  /** A response reaches the request whose id it carries, and only that one. */
  lemma ResponseReachesItsRequest(s: Session, m: ServerMessage)
    requires !s.closed && !m.system
    ensures var t := HandleEvent(s, m);
            && (m.requestId in s.pending ==> t.answered == s.answered + [(m.requestId, m.payload)] && t.events == s.events)
            && (m.requestId !in s.pending ==> t.answered == s.answered && (t.events == s.events + [m] <==> s.state == Joined))
            && t.pending == s.pending - {m.requestId}
  {}

  /** The answer was received, with the id of its request, in one of the steps. */
  predicate WasReceived(ops: seq<(Op, string)>, answer: (string, Object)) {
    exists i :: 0 <= i < |ops| && ops[i].0.Receive? && (ops[i].0.message.requestId, ops[i].0.message.payload) == answer
  }

  lemma {:induction false} AnswersReceived(s: Session, h: History, ops: seq<(Op, string)>, k: nat)
    requires Sound(s) && Runs(s, h, ops) && |s.answered| <= k < |After(s, h, ops).0.answered|
    ensures WasReceived(ops, After(s, h, ops).0.answered[k])
    ensures s.answered <= After(s, h, ops).0.answered
    decreases |ops|
  {
    var (op, id) := ops[0];
    var t := Step(s, op, id);
    StepSound(s, op, id);
    StepFrame(s, op, id);
    AnswersKept(t, Recorded(h, s, op, id), ops[1..]);
    if k < |t.answered| {
      assert (ops[0].0.message.requestId, ops[0].0.message.payload) == t.answered[k];
    } else {
      AnswersReceived(t, Recorded(h, s, op, id), ops[1..], k);
      var i :| 0 <= i < |ops[1..]| && ops[1..][i].0.Receive?
               && (ops[1..][i].0.message.requestId, ops[1..][i].0.message.payload) == After(s, h, ops).0.answered[k];
      assert ops[i + 1] == ops[1..][i];
    }
  }

  lemma {:induction false} AnswersKept(s: Session, h: History, ops: seq<(Op, string)>)
    requires Sound(s) && Runs(s, h, ops)
    ensures s.answered <= After(s, h, ops).0.answered
    decreases |ops|
  {
    if ops != [] {
      StepSound(s, ops[0].0, ops[0].1);
      StepFrame(s, ops[0].0, ops[0].1);
      AnswersKept(Step(s, ops[0].0, ops[0].1), Recorded(h, s, ops[0].0, ops[0].1), ops[1..]);
    }
  }

  /** In every run, each answer handed to a request is one that the server sent for the id of that request, which was
      made before by this channel, and no request is handed two. */
  lemma AnswersComeFromServer(s: Session, ops: seq<(Op, string)>, k: nat)
    requires IsNew(s) && Runs(s, NOTHING, ops) && k < |After(s, NOTHING, ops).0.answered|
    ensures
      var (t, h) := After(s, NOTHING, ops);
      && WasReceived(ops, t.answered[k]) && t.answered[k].0 in h.requested
      && forall j | 0 <= j < |t.answered| && j != k :: t.answered[j].0 != t.answered[k].0
  {
    NewSound(s.params, s.maxQueueSize, s.connection, s.outbound);
    AnswersReceived(s, NOTHING, ops, k);
    Conservation(s, ops);
  }
}
