/** A leave that overtakes the join before it: the user stays recorded, and the channel in use, until the next leave. */
module Overtaken {
  import opened Json
  import opened Wire
  import opened ChannelSpec
  import opened NodeSteps
  import opened Partition
  import opened Liveness
  import opened Moves
  import opened MovedUser
  import Cluster

  // ---------- what messages say about a user ----------

  /** The message, of the node and for the channel, that the operation handles. */
  function Message(op: Op, env: Env, channel: string, node: string): Option<Event> {
    if op.Receive? && Decode(op.data, env.freshId).Some?
       && Decode(op.data, env.freshId).value.channelName == channel && Decode(op.data, env.freshId).value.nodeId == node
    then Decode(op.data, env.freshId) else None
  }

  predicate Lists(ev: Event, u: string) {
    ev.payload.Get("users").Some? && ev.payload.Get("users").value.Arr?
    && exists user <- ev.payload.Get("users").value.items :: user.GetStr("id") == Some(u)
  }

  /** The message says that the user is there, or has left. */
  predicate SaysThere(ev: Event, u: string) {
    if ev.action == STATE_RESPONSE then Lists(ev, u)
    else
      ev.payload.GetStr("userId") == Some(u)
      && (ev.action == USER_JOINED || (ev.action == USER_COMMAND && ev.event == "user:get_response"))
  }

  predicate SaysGone(ev: Event, u: string) {
    ev.action == USER_LEFT && ev.payload.GetStr("userId") == Some(u)
  }

  lemma NamedIs(ev: Event, connected: set<string>, u: string)
    requires u !in connected && ev.payload.Get("users").Some? && ev.payload.Get("users").value.Arr?
    ensures u in Named(ev.payload.Get("users").value.items, connected) <==> Lists(ev, u)
  {
    var items := ev.payload.Get("users").value.items;
    if Lists(ev, u) {
      var user :| user in items && user.GetStr("id") == Some(u);
      var i :| 0 <= i < |items| && items[i] == user;
      assert items[i].GetStr("id").value == u;
    }
  }

  lemma EventSays(s: State, ev: Event, u: string, node: string)
    requires u !in s.connections && ev.nodeId == node
    ensures RecordedAfter(s, ChangeOfEvent(s, ev), u, node) <==> SaysThere(ev, u) || (RecordedAt(s, u, node) && !SaysGone(ev, u))
  {
    if ev.action == STATE_RESPONSE && ev.payload.Get("users").Some? && ev.payload.Get("users").value.Arr? {
      NamedIs(ev, s.connections, u);
    }
  }

  lemma EventElsewhere(s: State, ev: Event, u: string, node: string)
    requires ev.nodeId != node
    ensures RecordedAfter(s, ChangeOfEvent(s, ev), u, node) <==> RecordedAt(s, u, node)
  {}

  /** One operation other than a sweep or closing: recorded after it are those it says are there, and those recorded
      before that it does not say have left. */
  lemma StepSays(s: State, op: Op, env: Env, u: string, node: string)
    requires u !in s.connections && node != s.nodeId && node != "" && ReadsComplete(op, env) && !op.Shut? && !op.Sweep?
    ensures var m := Message(op, env, s.name, node);
            RecordedAt(Step(s, op, env), u, node)
            <==> (m.Some? && SaysThere(m.value, u)) || (RecordedAt(s, u, node) && !(m.Some? && SaysGone(m.value, u)))
  {
    StepChanges(s, op, env);
    assert RecordedAt(Step(s, op, env), u, node) <==> RecordedAfter(s, ChangeOf(s, op, env), u, node);
    if op.Receive? && Decode(op.data, env.freshId).Some? {
      var ev := Decode(op.data, env.freshId).value;
      if ev.nodeId == node { EventSays(s, ev, u, node); } else { EventElsewhere(s, ev, u, node); }
    }
  }

  // ---------- whole runs of one node ----------

  datatype Word = Nothing | There | Left

  /** What the last message of the node about the user says. */
  function LastWord(ops: Timeline, channel: string, node: string, u: string): Word
    decreases |ops|
  {
    if ops == [] then Nothing
    else
      var m := Message(ops[|ops| - 1].0, ops[|ops| - 1].1, channel, node);
      if m.Some? && SaysThere(m.value, u) then There
      else if m.Some? && SaysGone(m.value, u) then Left
      else LastWord(ops[..|ops| - 1], channel, node, u)
  }

  lemma {:induction false} NameStays(s: State, ops: Timeline)
    ensures StateAfter(s, ops).name == s.name
    decreases |ops|
  {
    if ops != [] {
      StepIdentity(s, ops[0].0, ops[0].1);
      NameStays(Step(s, ops[0].0, ops[0].1), ops[1..]);
    }
  }

  /** The channel stays open, and sweeps use at least this timeout. */
  predicate StaysOpen(op: Op, timeout: int) {
    !op.Shut? && (op.Sweep? ==> op.timeout >= timeout)
  }

  predicate AllStayOpen(ops: Timeline, timeout: int, from: nat, k: nat)
    requires k <= |ops|
  {
    forall i | from <= i < k :: StaysOpen(ops[i].0, timeout)
  }

  /** A run at a node that is not the home `node` of the user, with heartbeats of `node` less than a timeout apart. */
  ghost predicate Regular(s: State, ops: Timeline, u: string, node: string, timeout: int, from: nat, home: Homes) {
    && node != "" && node != s.nodeId && home(u) == node && TimeMovesOn(ops)
    && Partitioned(s, home) && AllowedOps(ops, s.nodeId, home)
    && BeatsRegularly(ops, node, timeout, from)
  }

  lemma NotConnectedHere(s: State, ops: Timeline, u: string, node: string, home: Homes)
    requires Partitioned(s, home) && AllowedOps(ops, s.nodeId, home) && home(u) == node && node != s.nodeId
    ensures var t := StateAfter(s, ops); u !in t.connections && t.nodeId == s.nodeId && t.name == s.name
  {
    TimelinePartitioned(s, ops, home);
    NameStays(s, ops);
    assert UserRight(StateAfter(s, ops), u, home);
  }

  lemma AllowedPrefix(ops: Timeline, k: nat, nodeId: string, home: Homes)
    requires AllowedOps(ops, nodeId, home) && k <= |ops|
    ensures AllowedOps(ops[..k], nodeId, home)
    ensures k < |ops| ==> ReadsComplete(ops[k].0, ops[k].1)
  {
    forall i | 0 <= i < k ensures AllowedOp(ops[..k][i].0, ops[..k][i].1, nodeId, home) {
      assert AllowedOp(ops[i].0, ops[i].1, nodeId, home);
    }
    if k < |ops| { assert AllowedOp(ops[k].0, ops[k].1, nodeId, home); }
  }

  lemma OneMoreWord(ops: Timeline, from: nat, k: nat, channel: string, node: string, u: string)
    requires from <= k < |ops|
    ensures var m := Message(ops[k].0, ops[k].1, channel, node);
            LastWord(ops[from..k + 1], channel, node, u)
            == if m.Some? && SaysThere(m.value, u) then There
               else if m.Some? && SaysGone(m.value, u) then Left
               else LastWord(ops[from..k], channel, node, u)
  {
    var some := ops[from..k + 1];
    assert some[|some| - 1] == ops[k] && some[..|some| - 1] == ops[from..k];
  }

  predicate RecordedBy(word: Word, before: bool) {
    word == There || (word == Nothing && before)
  }

  /** While heartbeats of the node keep coming, exactly the last word about a user counts, in whatever order the
      messages arrive: the user is recorded if it says so, is not if it is a leave, and is as before if there is none. */
  lemma {:induction false} LastWordCounts(s: State, ops: Timeline, u: string, node: string, timeout: int, from: nat, k: nat,
                                          home: Homes)
    requires Regular(s, ops, u, node, timeout, from, home) && from <= k <= |ops|
    requires AllStayOpen(ops, timeout, from, k)
    ensures RecordedAt(StateAfter(s, ops[..k]), u, node)
       <==> RecordedBy(LastWord(ops[from..k], s.name, node, u), RecordedAt(StateAfter(s, ops[..from]), u, node))
    decreases k
  {
    if from < k {
      LastWordCounts(s, ops, u, node, timeout, from, k - 1, home);
      OneMoreCounts(s, ops, u, node, timeout, from, k - 1, k, home, RecordedAt(StateAfter(s, ops[..from]), u, node));
    } else {
      assert ops[from..k] == [];
    }
  }

  lemma OneMoreCounts(s: State, ops: Timeline, u: string, node: string, timeout: int, from: nat, k: nat, next: nat, home: Homes,
                      was: bool)
    requires Regular(s, ops, u, node, timeout, from, home) && from <= k < |ops| && StaysOpen(ops[k].0, timeout)
    requires RecordedAt(StateAfter(s, ops[..k]), u, node) <==> RecordedBy(LastWord(ops[from..k], s.name, node, u), was)
    requires next == k + 1
    ensures RecordedAt(StateAfter(s, ops[..next]), u, node) <==> RecordedBy(LastWord(ops[from..next], s.name, node, u), was)
  {
    OneMoreWord(ops, from, k, s.name, node, u);
    RecordedStep(s, ops, u, node, timeout, from, k, home);
  }

  lemma RecordedStep(s: State, ops: Timeline, u: string, node: string, timeout: int, from: nat, k: nat, home: Homes)
    requires Regular(s, ops, u, node, timeout, from, home) && from <= k < |ops| && StaysOpen(ops[k].0, timeout)
    ensures var m := Message(ops[k].0, ops[k].1, s.name, node);
            RecordedAt(StateAfter(s, ops[..k + 1]), u, node) <==>
              (m.Some? && SaysThere(m.value, u))
              || (RecordedAt(StateAfter(s, ops[..k]), u, node) && !(m.Some? && SaysGone(m.value, u)))
  {
    var before := StateAfter(s, ops[..k]);
    if ops[k].0.Sweep? {
      NoSweepTakesUsers(s, ops, node, timeout, from, k, home);
    } else {
      AllowedPrefix(ops, k, s.nodeId, home);
      NotConnectedHere(s, ops[..k], u, node, home);
      OneMore(s, ops, k);
      StepSays(before, ops[k].0, ops[k].1, u, node);
    }
  }

  /** So a user whose leave was handled before the join is recorded, and the channel in use, for as long as the node
      keeps beating and says no further leave of that user. */
  lemma OvertakenStays(s: State, ops: Timeline, u: string, node: string, timeout: int, from: nat, k: nat, home: Homes)
    requires Regular(s, ops, u, node, timeout, from, home) && from < k <= |ops|
    requires AllStayOpen(ops, timeout, from, k)
    requires LastWord(ops[from..k], s.name, node, u) == There
    ensures RecordedAt(StateAfter(s, ops[..k]), u, node) && !NoUsersAnywhere(StateAfter(s, ops[..k]))
  {
    LastWordCounts(s, ops, u, node, timeout, from, k, home);
  }

  // ---------- a run of the cluster ----------

  const LEAVE_FIRST: Actions := [
    (Cluster.Local("a", Add("ann", map[])), HERE), (Cluster.Local("a", Remove("ann")), WITH_ANN), (Arrival("c", Gone("a")), HERE)]

  const JOIN_LAST: Actions := [(Arrival("c", Joined("a")), HERE)]

  function Hearer(): State {
    Heard(Joined("a"), Heard(Gone("a"), Node("c")))
  }

  /** The third node after the leave alone, and after the join too. */
  lemma HearsLeaveFirst()
    ensures var c1 := Heard(Gone("a"), Node("c"));
            c1.connections == {} && RecordedAt(Hearer(), "ann", "a") && "ann" in Hearer().assigns
  {
    var c0 := Node("c");
    var c1 := Heard(Gone("a"), c0);
    LeaveRead("a");
    Hears(c0, Gone("a"));
    StepChanges(c0, Receive(Bytes(Gone("a"), "", "", 0)), HERE);
    StepIdentity(c0, Receive(Bytes(Gone("a"), "", "", 0)), HERE);
    assert c1.connections == {};
    HearsJoin(c1);
  }

  lemma HearsJoin(s: State)
    requires s.name == "room" && s.nodeId == "c" && s.connections == {}
    ensures var t := Heard(Joined("a"), s); RecordedAt(t, "ann", "a") && "ann" in t.assigns
  {
    JoinRead("a");
    Hears(s, Joined("a"));
    StepChanges(s, Receive(Bytes(Joined("a"), "", "", 0)), HERE);
    assert RecordedAfter(s, Learns({"ann"}, "a"), "ann", "a") && AssignedAfter(s, Learns({"ann"}, "a"), "ann");
  }

  lemma LeaveArrivesFirst(w: Cluster.World)
    requires w.nodes == Nodes(Node("a"), Node("b"), Node("c"))
    ensures AllPossible(w, LEAVE_FIRST)
    ensures Cluster.Run(w, LEAVE_FIRST).nodes == Nodes(RemoveUser(WithAnn("a"), "ann"), Node("b"), Heard(Gone("a"), Node("c")))
    ensures Joined("a") in Cluster.Run(w, LEAVE_FIRST).net
  {
    AnnMoves(w, Node("c"));
    var w1 := Cluster.Next(w, LEAVE_FIRST[0].0, LEAVE_FIRST[0].1);
    AnnLeaves(w1, Node("c"));
    var w2 := Cluster.Next(w1, LEAVE_FIRST[1].0, LEAVE_FIRST[1].1);
    ArrivesAtThird(w2, RemoveUser(WithAnn("a"), "ann"), Node("b"), Node("c"), Gone("a"));
    ThreeSteps(w, LEAVE_FIRST[0], LEAVE_FIRST[1], LEAVE_FIRST[2]);
    assert LEAVE_FIRST == [LEAVE_FIRST[0], LEAVE_FIRST[1], LEAVE_FIRST[2]];
  }

  lemma JoinArrivesLast(w: Cluster.World, a: State, b: State, c: State)
    requires w.nodes == Nodes(a, b, c) && c.connections == {} && Joined("a") in w.net
    ensures AllPossible(w, JOIN_LAST) && Cluster.Run(w, JOIN_LAST).nodes == Nodes(a, b, Heard(Joined("a"), c))
  {
    ArrivesAtThird(w, a, b, c, Joined("a"));
    OneStep(w, JOIN_LAST[0]);
    assert JOIN_LAST == [JOIN_LAST[0]];
  }

  lemma OvertakenRun()
    ensures AllPossible(Cluster.EMPTY, OPENING + LEAVE_FIRST + JOIN_LAST)
    ensures Cluster.Run(Cluster.EMPTY, OPENING + LEAVE_FIRST + JOIN_LAST).nodes
         == Nodes(RemoveUser(WithAnn("a"), "ann"), Node("b"), Hearer())
  {
    Opening();
    var w3 := Cluster.Run(Cluster.EMPTY, OPENING);
    LeaveArrivesFirst(w3);
    HearsLeaveFirst();
    JoinArrivesLast(Cluster.Run(w3, LEAVE_FIRST), RemoveUser(WithAnn("a"), "ann"), Node("b"), Heard(Gone("a"), Node("c")));
    RunConcat(Cluster.EMPTY, OPENING, LEAVE_FIRST);
    RunConcat(Cluster.EMPTY, OPENING + LEAVE_FIRST, JOIN_LAST);
  }

  /** A run from the start: a user joins and leaves, the third node hears of the leave first. The join has arrived there
      too, nobody is connected anywhere, and the third node has the user recorded. */
  lemma LeaveOvertakesJoin()
    ensures AllPossible(Cluster.EMPTY, OPENING + LEAVE_FIRST + JOIN_LAST)
    ensures var nodes := Cluster.Run(Cluster.EMPTY, OPENING + LEAVE_FIRST + JOIN_LAST).nodes;
            && "c" in nodes && (forall n <- nodes :: nodes[n].connections == {})
            && RecordedAt(nodes["c"], "ann", "a") && "ann" in nodes["c"].assigns && !NoUsersAnywhere(nodes["c"])
  {
    OvertakenRun();
    HearsLeaveFirst();
    NobodyConnected();
    NobodyIn(RemoveUser(WithAnn("a"), "ann"), Node("b"), Hearer());
  }

  lemma NobodyIn(a: State, b: State, c: State)
    requires a.connections == {} && b.connections == {} && c.connections == {}
    ensures var nodes := Nodes(a, b, c);
            "c" in nodes && nodes["c"] == c && forall n <- nodes :: nodes[n].connections == {}
  {}

  lemma NobodyConnected()
    ensures RemoveUser(WithAnn("a"), "ann").connections == {} && Node("b").connections == {} && Hearer().connections == {}
  {
    AnnComes("a");
    var c1 := Heard(Gone("a"), Node("c"));
    HearsLeaveFirst();
    StepIdentity(Node("c"), Receive(Bytes(Gone("a"), "", "", 0)), HERE);
    JoinRead("a");
    Hears(c1, Joined("a"));
    StepChanges(c1, Receive(Bytes(Joined("a"), "", "", 0)), HERE);
  }
}
