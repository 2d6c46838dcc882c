/** What each step of a client channel decides, said without the functions that compute it: the next state, the frames
    on the wire, the requests that wait and what becomes of a received message; and what follows in every run about
    leaving and about refusals. */
module ClientLaws {
  import opened Json
  import opened ClientSpec
  import opened ClientRuns

  // ---------- the next state ----------

  predicate Refusal(m: ServerMessage) {
    m.system && (m.event == Unauthorized || m.event == NotFound)
  }

  /** The state diagram: a state and what happens decide the next state. */
  function NextState(state: ChannelState, op: Op): ChannelState {
    match (state, op)
    case (Closed, _) => Closed
    case (_, LeaveOp) => Closed
    case (_, DisconnectOp) => Closed
    case (Idle, JoinOp) => Joining
    case (Stalled, JoinOp) => Joining
    case (Stalled, OpenOp) => Joining
    case (Joining, LoseOp) => Stalled
    case (Joined, LoseOp) => Stalled
    case (Joining, Receive(m)) =>
      if m.system && m.event == Evicted then Closed
      else if m.system && m.event == Acknowledge then Joined
      else if Refusal(m) then Declined
      else Joining
    case (_, Receive(m)) => if m.system && m.event == Evicted then Closed else state
    case _ => state
  }

  lemma StateDecided(s: Session, op: Op, id: string)
    requires Sound(s) && Enabled(s, op)
    ensures Step(s, op, id).state == NextState(s.state, op)
  {}

  // ---------- the wire ----------

  predicate IsLeave(f: Frame) {
    f.Sent? && f.message.action == LeaveChannel
  }

  /** Leaving tells the server, once, if it can be told, and closes the channel in any case. */
  lemma LeavingTells(s: Session, id: string)
    requires !s.closed
    ensures
      var t := Step(s, LeaveOp, id);
      && t.closed && t.queue == [] && t.pending == {}
      && (!s.outbound ==> t.wire == s.wire)
      && (s.outbound ==>
            && |t.wire| == |s.wire| + 1 && s.wire <= t.wire && IsLeave(t.wire[|s.wire|])
            && var m := t.wire[|s.wire|].message;
               m.requestId == id && m.event == "LEAVE_CHANNEL" && m.payload == map[])
  {}

  predicate IsJoinFor(f: Frame, params: Object, id: string) {
    IsJoin(f) && f.message.event == "JOIN_CHANNEL" && f.message.payload == params && f.message.requestId == id
  }

  lemma {:induction false} OnlyCastsSent(queue: seq<Message>)
    requires OnlyCasts(queue)
    ensures forall f <- SentAll(queue) :: IsCast(f)
  {
    if queue != [] {
      assert queue[0] in queue;
      OnlyCastsSent(queue[1..]);
    }
  }

  /** An explicit join is written if the channel may ask for it and the writer takes it; a new connection makes a
      channel that wants to be joined ask again. The join carries the parameters of the channel and a new id. */
  lemma JoinsSent(s: Session, id: string)
    requires Sound(s)
    ensures
      var t := Step(s, JoinOp, id);
      if (s.state == Idle || s.state == Stalled) && s.outbound
      then |t.wire| == |s.wire| + 1 && s.wire <= t.wire && IsJoinFor(t.wire[|s.wire|], s.params, id) && t.queue == s.queue
      else t.wire == s.wire
  {}

  lemma JoinsAgain(s: Session, id: string)
    requires Sound(s) && Enabled(s, OpenOp)
    ensures
      var t := Step(s, OpenOp, id);
      && t.connection == Connected && t.outbound && |t.wire| > |s.wire| && s.wire <= t.wire && t.wire[|s.wire|] == Opened
      && if s.state == Stalled || s.state == Joining
         then |t.wire| == |s.wire| + 2 && IsJoinFor(t.wire[|s.wire| + 1], s.params, id)
         else |t.wire| == |s.wire| + 1
  {
    OpenShape(s, id);
  }

  lemma AckSends(s: Session, op: Op, id: string)
    requires Sound(s) && IsAck(op)
    ensures var t := Step(s, op, id);
            s.wire <= t.wire && forall f <- t.wire[|s.wire|..] :: f == Acked || IsCast(f)
  {
    var t := Step(s, op, id);
    AckShape(s, op, id);
    var sent := if Drains(s) then SentAll(s.queue) else [];
    if Drains(s) { OnlyCastsSent(s.queue); }
    assert t.wire[|s.wire|..] == (if s.closed then [] else [Acked]) + sent;
  }

  lemma OthersSend(s: Session, op: Op, id: string)
    requires Sound(s) && Enabled(s, op) && op != JoinOp && op != OpenOp && !IsAck(op)
    ensures var t := Step(s, op, id);
            t.wire == s.wire || (|t.wire| == |s.wire| + 1 && s.wire <= t.wire
                                 && (IsCast(t.wire[|s.wire|]) || (op == LeaveOp && !s.closed && IsLeave(t.wire[|s.wire|]))))
  {}

  /** Nothing but leaving an open channel sends a leave. */
  lemma OthersSendNoLeave(s: Session, op: Op, id: string)
    requires Sound(s) && Enabled(s, op) && !(op == LeaveOp && !s.closed)
    ensures var t := Step(s, op, id); s.wire <= t.wire && forall f <- t.wire[|s.wire|..] :: !IsLeave(f)
  {
    if op == JoinOp {
      JoinsSent(s, id);
    } else if op == OpenOp {
      JoinsAgain(s, id);
    } else if IsAck(op) {
      AckSends(s, op, id);
    } else {
      OthersSend(s, op, id);
    }
  }

  lemma OthersSendNoJoin(s: Session, op: Op, id: string)
    requires Sound(s) && Enabled(s, op) && op != JoinOp && op != OpenOp
    ensures var t := Step(s, op, id); s.wire <= t.wire && forall f <- t.wire[|s.wire|..] :: !IsJoin(f)
  {
    if IsAck(op) { AckSends(s, op, id); } else { OthersSend(s, op, id); }
  }

  // ---------- leaving in a run ----------

  function LeavesOn(wire: seq<Frame>): nat
    decreases |wire|
  {
    if wire == [] then 0 else LeavesOn(wire[..|wire| - 1]) + if IsLeave(wire[|wire| - 1]) then 1 else 0
  }

  /** The steps of a run that leave the channel while it is open and the writer takes messages. */
  function LeavesTold(s: Session, ops: seq<(Op, string)>): nat
    decreases |ops|
  {
    if ops == [] then 0
    else
      (if ops[0].0 == LeaveOp && !s.closed && s.outbound then 1 else 0)
      + LeavesTold(Step(s, ops[0].0, ops[0].1), ops[1..])
  }

  predicate SilentAfterLeave(wire: seq<Frame>) {
    forall j, k :: 0 <= j < k < |wire| && IsLeave(wire[j]) ==> !wire[k].Sent?
  }

  lemma OneLeave(wire: seq<Frame>, f: Frame)
    ensures LeavesOn(wire + [f]) == LeavesOn(wire) + if IsLeave(f) then 1 else 0
  {
    assert (wire + [f])[..|wire|] == wire;
  }

  lemma {:induction false} NoLeaveOn(wire: seq<Frame>, more: seq<Frame>)
    requires forall f <- more :: !IsLeave(f)
    ensures LeavesOn(wire + more) == LeavesOn(wire)
    decreases |more|
  {
    if more == [] {
      assert wire + more == wire;
    } else {
      var n := |more| - 1;
      assert more[n] in more;
      NoLeaveOn(wire, more[..n]);
      OneLeave(wire + more[..n], more[n]);
      assert wire + more == wire + more[..n] + [more[n]];
    }
  }

  lemma {:induction false} LeaveCounted(wire: seq<Frame>, j: nat)
    requires j < |wire| && IsLeave(wire[j])
    ensures LeavesOn(wire) > 0
    decreases |wire|
  {
    if j < |wire| - 1 { LeaveCounted(wire[..|wire| - 1], j); }
  }

  lemma LeaveCountStep(s: Session, op: Op, id: string)
    requires Sound(s) && Enabled(s, op)
    ensures LeavesOn(Step(s, op, id).wire) == LeavesOn(s.wire) + if op == LeaveOp && !s.closed && s.outbound then 1 else 0
  {
    var t := Step(s, op, id);
    if op == LeaveOp && !s.closed {
      LeavingTells(s, id);
      if s.outbound { OneLeave(s.wire, t.wire[|s.wire|]); assert t.wire == s.wire + [t.wire[|s.wire|]]; }
    } else {
      OthersSendNoLeave(s, op, id);
      NoLeaveOn(s.wire, t.wire[|s.wire|..]);
      assert s.wire + t.wire[|s.wire|..] == t.wire;
    }
  }

  /** A channel that sent its leave is closed, and nothing was sent after it. */
  predicate LeftForGood(s: Session) {
    LeavesOn(s.wire) <= (if s.closed then 1 else 0) && SilentAfterLeave(s.wire)
  }

  lemma SilentStep(s: Session, op: Op, id: string)
    requires Sound(s) && Enabled(s, op) && LeftForGood(s)
    ensures LeftForGood(Step(s, op, id))
  {
    var t := Step(s, op, id);
    LeaveCountStep(s, op, id);
    StateGraph(s, op, id);
    StepSound(s, op, id);
    if s.closed {
    } else {
      forall j | 0 <= j < |s.wire| ensures !IsLeave(s.wire[j]) { if IsLeave(s.wire[j]) { LeaveCounted(s.wire, j); } }
      if op == LeaveOp { LeavingTells(s, id); } else { OthersSendNoLeave(s, op, id); NewFramesOnly(s.wire, t.wire); }
    }
  }

  lemma NewFramesOnly(wire: seq<Frame>, longer: seq<Frame>)
    requires wire <= longer && (forall j :: 0 <= j < |wire| ==> !IsLeave(wire[j]))
    requires forall f <- longer[|wire|..] :: !IsLeave(f)
    ensures forall j :: 0 <= j < |longer| ==> !IsLeave(longer[j])
  {
    forall j | 0 <= j < |longer| ensures !IsLeave(longer[j]) {
      if j >= |wire| { assert longer[j] in longer[|wire|..]; }
    }
  }

  lemma {:induction false} LeaveRun(s: Session, h: History, ops: seq<(Op, string)>)
    requires Sound(s) && LeftForGood(s) && Runs(s, h, ops)
    ensures var t := After(s, h, ops).0;
            Sound(t) && LeftForGood(t) && LeavesOn(t.wire) == LeavesOn(s.wire) + LeavesTold(s, ops)
    decreases |ops|
  {
    if ops != [] {
      var (op, id) := ops[0];
      StepSound(s, op, id);
      SilentStep(s, op, id);
      LeaveCountStep(s, op, id);
      LeaveRun(Step(s, op, id), Recorded(h, s, op, id), ops[1..]);
    }
  }

  /** In every run the wire carries as many leaves as steps left an open channel while the writer took messages, which
      is one at most; and nothing is sent after it. */
  lemma LeavesInRuns(s: Session, ops: seq<(Op, string)>)
    requires IsNew(s) && Runs(s, NOTHING, ops)
    ensures
      var t := After(s, NOTHING, ops).0;
      && LeavesOn(t.wire) == LeavesTold(s, ops) <= 1
      && (forall j, k :: 0 <= j < k < |t.wire| && IsLeave(t.wire[j]) ==> !t.wire[k].Sent?)
  {
    NewSound(s.params, s.maxQueueSize, s.connection, s.outbound);
    LeaveRun(s, NOTHING, ops);
  }

  // ---------- what becomes of a received message ----------

  /** A received message closes the channel, answers its join, answers one of its requests, is handed to its
      subscribers, or is of no use to it. */
  datatype Fate = Closes | Confirms | Refuses | Answers | Handed | Unused

  function FateOf(s: Session, m: ServerMessage): Fate {
    if s.closed then Unused
    else if m.system && m.event == Evicted then Closes
    else if m.system && m.event == Acknowledge then Confirms
    else if Refusal(m) && AwaitsJoin(s) then Refuses
    else if m.requestId in s.pending then Answers
    else if s.state == Joined then Handed
    else Unused
  }

  /** Each received message has one effect: subscribers see an eviction and what nobody else takes, a request sees
      the response with its id, a refusal declines the channel for its reason and ends all waiting. */
  lemma MessageHasOneFate(s: Session, m: ServerMessage, id: string)
    ensures
      var t, fate := Step(s, Receive(m), id), FateOf(s, m);
      && t.events == (if fate == Handed || fate == Closes then s.events + [m] else s.events)
      && t.answered == (if fate == Answers then s.answered + [(m.requestId, m.payload)] else s.answered)
      && t.declineReason == (if fate == Refuses then Some(m.payload) else s.declineReason)
      && (t.state == Declined <==> fate == Refuses || (s.state == Declined && fate != Closes))
      && (fate == Refuses || fate == Closes ==> t.queue == [] && t.pending == {})
      && (fate == Answers ==> t.pending == s.pending - {m.requestId})
      && (fate != Confirms ==> t.wire == s.wire)
  {}

  /** A refusal of an awaited join declines the channel for the reason it carries; one that is not awaited does not. */
  lemma RefusalDeclines(s: Session, m: ServerMessage, id: string)
    requires Sound(s) && s.connection == Connected && Refusal(m)
    ensures
      var t := Step(s, Receive(m), id);
      && (s.state == Joining ==> t.state == Declined && t.declineReason == Some(m.payload) && t.queue == [] && t.pending == {})
      && (s.state != Joining ==> t.state == s.state && t.declineReason == s.declineReason && t.queue == s.queue)
  {}

  // ---------- waiting requests ----------

  /** What ends the wait for the response to a request. */
  predicate EndsWait(s: Session, op: Op, x: string) {
    || op == GiveUp(x)
    || op == LeaveOp || op == DisconnectOp
    || (op.Receive? && (FateOf(s, op.message) == Closes || FateOf(s, op.message) == Refuses
                        || (FateOf(s, op.message) == Answers && op.message.requestId == x)))
  }

  /** A request waits from when an open channel makes it until it is answered or given up, or all waiting ends. */
  lemma WaitsExactly(s: Session, op: Op, id: string, x: string)
    requires Sound(s)
    ensures x in Step(s, op, id).pending
       <==> (x in s.pending && !EndsWait(s, op, x)) || (op.Request? && x == id && !s.closed)
  {}

  /** The refusal was received, with this reason, in one of the steps. */
  predicate WasRefused(ops: seq<(Op, string)>, reason: Object) {
    exists i :: 0 <= i < |ops| && ops[i].0.Receive? && Refusal(ops[i].0.message) && ops[i].0.message.payload == reason
  }

  lemma ReasonStep(s: Session, op: Op, id: string)
    requires Sound(s) && Enabled(s, op) && (s.state == Declined ==> s.declineReason.Some?)
    ensures var t := Step(s, op, id);
            && (t.state == Declined ==> t.declineReason.Some?)
            && (t.declineReason != s.declineReason ==>
                  op.Receive? && Refusal(op.message) && t.declineReason == Some(op.message.payload))
  {
    if op.Receive? { MessageHasOneFate(s, op.message, id); }
  }

  lemma {:induction false} ReasonRun(s: Session, h: History, ops: seq<(Op, string)>)
    requires Sound(s) && Runs(s, h, ops) && (s.state == Declined ==> s.declineReason.Some?)
    ensures var t := After(s, h, ops).0;
            && (t.state == Declined ==> t.declineReason.Some?)
            && (t.declineReason == s.declineReason || (t.declineReason.Some? && WasRefused(ops, t.declineReason.value)))
    decreases |ops|
  {
    if ops != [] {
      var (op, id) := ops[0];
      var t := Step(s, op, id);
      StepSound(s, op, id);
      ReasonStep(s, op, id);
      ReasonRun(t, Recorded(h, s, op, id), ops[1..]);
      var end := After(s, h, ops).0;
      if end.declineReason != t.declineReason {
        var i :| 0 <= i < |ops[1..]| && ops[1..][i].0.Receive? && Refusal(ops[1..][i].0.message)
                 && ops[1..][i].0.message.payload == end.declineReason.value;
        assert ops[i + 1] == ops[1..][i];
      }
    }
  }

  /** In every run a declined channel has the reason of a refusal that it received. */
  lemma DeclinedForAReason(s: Session, ops: seq<(Op, string)>)
    requires IsNew(s) && Runs(s, NOTHING, ops) && After(s, NOTHING, ops).0.state == Declined
    ensures var reason := After(s, NOTHING, ops).0.declineReason; reason.Some? && WasRefused(ops, reason.value)
  {
    NewSound(s.params, s.maxQueueSize, s.connection, s.outbound);
    ReasonRun(s, NOTHING, ops);
  }
}
