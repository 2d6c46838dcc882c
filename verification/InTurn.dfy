/** Two nodes opened one after the other, each with a user: a run after which both have caught up. */
module InTurn {
  import opened Json
  import opened Wire
  import opened ChannelSpec
  import opened NodeSteps
  import opened Partition
  import opened Views
  import opened Convergence
  import Agreement
  import Liveness

  function HomeOf(u: string): string {
    if u == "bob" then "b" else "a"
  }

  const HERE := Env([], "r", 0)
  const WITH_ANN := Env(["ann"], "r", 0)
  const WITH_BOB := Env(["bob"], "r", 0)

  const TO_B: (Convergence.Action, Env) := (Deliver("a", "b", "", "", 0), WITH_BOB)
  const TO_A: (Convergence.Action, Env) := (Deliver("b", "a", "", "", 0), WITH_ANN)

  /** "a" opens and gets a user, then "b" does; what they have to say to each other is delivered in between. */
  const TURNS: Steps := [
    (Open("a"), HERE),
    (Convergence.Local("a", Add("ann", map[])), HERE),
    (Open("b"), HERE),
    TO_A,
    (Convergence.Local("b", Add("bob", map[])), HERE),
    TO_B,
    TO_A]

  /** A world of the two nodes, by what they are, what is on its way, and who has told the other all. */
  predicate IsTwo(w: World, a: State, b: State, ab: seq<Publication>, ba: seq<Publication>, aTold: bool, bTold: bool) {
    && w.nodes.Keys == {"a", "b"} && w.nodes["a"] == a && w.nodes["b"] == b
    && ("a", "b") in w.queues && w.queues[("a", "b")] == ab && ("b", "a") in w.queues && w.queues[("b", "a")] == ba
    && (("a", "b") in w.told <==> aTold) && (("b", "a") in w.told <==> bTold)
  }

  function Node(n: string): State {
    Start(Fresh("room", n, true))
  }

  function WithUser(n: string, u: string): State {
    AddUser(Node(n), u, map[]).0
  }

  function Joined(n: string, u: string): Publication {
    Publication(JoinedEvent("room", "r", u, map[]).(nodeId := n), "user:joined")
  }

  function Answer(): Publication {
    Publication(StateResponseEvent("room", "r", UserEntries(map["ann" := map[]], map[], ["ann"])).(nodeId := "a"), "state:response")
  }

  function Asked(): Publication {
    Request("b", "room", "r")
  }

  // ---------- single steps ----------

  lemma FirstWorld()
    ensures IsTwo(Initial({"a", "b"}, "room"), Fresh("room", "a", true), Fresh("room", "b", true), [], [], false, false)
  {}

  lemma OpenedA(w: World, a: State, b: State)
    requires IsTwo(w, a, b, [], [], false, false) && a.name == "room" && !b.active
    ensures IsTwo(Opened(w, "a", HERE), Node("a"), b, [], [], false, false)
  {}

  lemma OpenedB(w: World, a: State, b: State)
    requires IsTwo(w, a, b, [], [], false, false) && b.name == "room" && a.active
    ensures IsTwo(Opened(w, "b", HERE), a, Node("b"), [], [Asked()], false, true)
  {
    assert RequestStateSends(Node("b"), "r") == [Asked()];
  }

  lemma StepOfA(w: World, a: State, b: State, ab: seq<Publication>, ba: seq<Publication>, aTold: bool, bTold: bool, op: Op,
                env: Env, t: State, sent: seq<Publication>)
    requires IsTwo(w, a, b, ab, ba, aTold, bTold) && t == Step(a, op, env) && sent == Sends(a, op, env) && !op.Sweep?
    ensures IsTwo(NodeStep(w, "a", op, env), t, b, if b.active then ab + sent else ab, ba,
                  aTold || (b.active && IsStateRequest(a, op, env)), bTold)
  {}

  lemma StepOfB(w: World, a: State, b: State, ab: seq<Publication>, ba: seq<Publication>, aTold: bool, bTold: bool, op: Op,
                env: Env, t: State, sent: seq<Publication>)
    requires IsTwo(w, a, b, ab, ba, aTold, bTold) && t == Step(b, op, env) && sent == Sends(b, op, env) && !op.Sweep? && a.active
    ensures IsTwo(NodeStep(w, "b", op, env), a, t, ab, ba + sent, aTold, bTold || IsStateRequest(b, op, env))
  {}

  lemma Popping(w: World, a: State, b: State, ab: seq<Publication>, ba: seq<Publication>, aTold: bool, bTold: bool)
    requires IsTwo(w, a, b, ab, ba, aTold, bTold)
    ensures ba != [] ==> IsTwo(Popped(w, "b", "a"), a, b, ab, ba[1..], aTold, bTold)
    ensures ab != [] ==> IsTwo(Popped(w, "a", "b"), a, b, ab[1..], ba, aTold, bTold)
  {}

  lemma AOpens(v: World) returns (w: World)
    requires IsTwo(v, Fresh("room", "a", true), Fresh("room", "b", true), [], [], false, false)
    ensures Goes(v, TURNS[0], w, HomeOf) && IsTwo(w, Node("a"), Fresh("room", "b", true), [], [], false, false)
  {
    OpenedA(v, Fresh("room", "a", true), Fresh("room", "b", true));
    w := Next(v, TURNS[0].0, TURNS[0].1);
  }

  lemma AnnJoins(v: World) returns (w: World)
    requires IsTwo(v, Node("a"), Fresh("room", "b", true), [], [], false, false)
    ensures Goes(v, TURNS[1], w, HomeOf) && IsTwo(w, WithUser("a", "ann"), Fresh("room", "b", true), [], [], false, false)
  {
    var op := Add("ann", map[]);
    StepOfA(v, Node("a"), Fresh("room", "b", true), [], [], false, false, op, HERE, WithUser("a", "ann"),
            Sends(Node("a"), op, HERE));
    w := Next(v, TURNS[1].0, TURNS[1].1);
  }

  lemma BOpens(v: World) returns (w: World)
    requires IsTwo(v, WithUser("a", "ann"), Fresh("room", "b", true), [], [], false, false)
    ensures Goes(v, TURNS[2], w, HomeOf) && IsTwo(w, WithUser("a", "ann"), Node("b"), [], [Asked()], false, true)
  {
    OpenedB(v, WithUser("a", "ann"), Fresh("room", "b", true));
    w := Next(v, TURNS[2].0, TURNS[2].1);
  }

  lemma DeliveredA(v: World, a: State, b: State, p: Publication, data: Value, aTold: bool, t: State, sent: seq<Publication>)
    returns (w: World)
    requires IsTwo(v, a, b, [], [p], aTold, true) && a.active && b.active && a.connections == {"ann"}
    requires data == Bytes(p, "", "", 0) && t == Step(a, Receive(data), WITH_ANN) && sent == Sends(a, Receive(data), WITH_ANN)
    ensures Goes(v, TO_A, w, HomeOf) && IsTwo(w, t, b, sent, [], aTold || IsStateRequest(a, Receive(data), WITH_ANN), true)
  {
    Popping(v, a, b, [], [p], aTold, true);
    StepOfA(Popped(v, "b", "a"), a, b, [], [], aTold, true, Receive(data), WITH_ANN, t, sent);
    w := Next(v, TO_A.0, TO_A.1);
  }

  lemma RequestHandled(a: State, data: Value)
    requires a == WithUser("a", "ann")
    requires var read := Decode(data, "r");
             read.Some? && read.value.action == STATE_REQUEST && read.value.nodeId == "b" && read.value.channelName == "room"
    ensures IsStateRequest(a, Receive(data), WITH_ANN)
    ensures Step(a, Receive(data), WITH_ANN) == a && Sends(a, Receive(data), WITH_ANN) == [Answer()]
  {
    RequestStep(a, Receive(data), WITH_ANN);
  }

  lemma AskedHandled(a: State, data: Value)
    requires a == WithUser("a", "ann") && data == Bytes(Asked(), "", "", 0)
    ensures IsStateRequest(a, Receive(data), WITH_ANN)
    ensures Step(a, Receive(data), WITH_ANN) == a && Sends(a, Receive(data), WITH_ANN) == [Answer()]
  {
    RequestRead("b", "room", "r", "", "", 0, "r");
    RequestHandled(a, data);
  }

  lemma AAnswers(v: World) returns (w: World)
    requires IsTwo(v, WithUser("a", "ann"), Node("b"), [], [Asked()], false, true)
    ensures Goes(v, TURNS[3], w, HomeOf) && IsTwo(w, WithUser("a", "ann"), Node("b"), [Answer()], [], true, true)
  {
    var data := Bytes(Asked(), "", "", 0);
    assert TURNS[3] == TO_A;
    AskedHandled(WithUser("a", "ann"), data);
    w := AnswerGoesOut(v, WithUser("a", "ann"), Node("b"), data);
  }

  lemma AnswerGoesOut(v: World, a: State, b: State, data: Value) returns (w: World)
    requires IsTwo(v, a, b, [], [Asked()], false, true) && a.active && b.active && a.connections == {"ann"}
    requires data == Bytes(Asked(), "", "", 0) && IsStateRequest(a, Receive(data), WITH_ANN)
    requires Step(a, Receive(data), WITH_ANN) == a && Sends(a, Receive(data), WITH_ANN) == [Answer()]
    ensures Goes(v, TO_A, w, HomeOf) && IsTwo(w, a, b, [Answer()], [], true, true)
  {
    w := DeliveredA(v, a, b, Asked(), data, false, a, [Answer()]);
  }

  lemma BobJoins(v: World) returns (w: World)
    requires IsTwo(v, WithUser("a", "ann"), Node("b"), [Answer()], [], true, true)
    ensures Goes(v, TURNS[4], w, HomeOf) && IsTwo(w, WithUser("a", "ann"), WithUser("b", "bob"), [Answer()],
                                                          [Joined("b", "bob")], true, true)
  {
    var op := Add("bob", map[]);
    assert Sends(Node("b"), op, HERE) == [Joined("b", "bob")];
    StepOfB(v, WithUser("a", "ann"), Node("b"), [Answer()], [], true, true, op, HERE, WithUser("b", "bob"), [Joined("b", "bob")]);
    w := Next(v, TURNS[4].0, TURNS[4].1);
  }

  lemma DispatchedQuietly(s: State, ev: Event, env: Env)
    requires ev.action == STATE_RESPONSE || ev.action == USER_JOINED
    ensures DispatchSends(s, ev, env) == []
    ensures var t := Dispatch(s, ev, env); t.active == s.active && t.connections == s.connections
  {
    var users := ev.payload.Get("users");
    if users.Some? && users.value.Arr? { LearnIdentity(s, users.value.items, ev.nodeId, env.now); }
  }

  /** An answer, or a join of another node, is taken in without a word, and changes nothing about who is connected. */
  lemma TakenIn(s: State, data: Value, ev: Event, env: Env)
    requires Decode(data, env.freshId) == Some(ev) && (ev.action == STATE_RESPONSE || ev.action == USER_JOINED)
    ensures !IsStateRequest(s, Receive(data), env) && Sends(s, Receive(data), env) == []
    ensures var t := Step(s, Receive(data), env); t.active == s.active && t.connections == s.connections
  {
    DispatchedQuietly(s, ev, env);
  }

  lemma AnswerRead()
    ensures ReadAs(Answer(), "r").action == STATE_RESPONSE
  {
    assert Classify(Answer().ev, "state:response") == StateResponse;
  }

  lemma JoinRead(n: string, u: string)
    ensures ReadAs(Joined(n, u), "r").action == USER_JOINED
  {
    assert Classify(Joined(n, u).ev, "user:joined") == UserJoined;
  }

  lemma AnswerTaken(b0: State, data: Value) returns (b: State)
    requires b0 == WithUser("b", "bob") && data == Bytes(Answer(), "", "", 0)
    ensures b == Step(b0, Receive(data), WITH_BOB) && Sends(b0, Receive(data), WITH_BOB) == []
    ensures !IsStateRequest(b0, Receive(data), WITH_BOB)
    ensures b.active && b.connections == {"bob"} && ("a" in b.lastSeen ==> b.lastSeen["a"] == 0)
  {
    BytesRead(Answer(), "", "", 0, "r");
    AnswerRead();
    b := AnswerLearned(b0, data, ReadAs(Answer(), "r"));
  }

  lemma AnswerLearned(b0: State, data: Value, ev: Event) returns (b: State)
    requires b0 == WithUser("b", "bob") && Decode(data, "r") == Some(ev) && ev.action == STATE_RESPONSE
    ensures b == Step(b0, Receive(data), WITH_BOB) && Sends(b0, Receive(data), WITH_BOB) == []
    ensures !IsStateRequest(b0, Receive(data), WITH_BOB)
    ensures b.active && b.connections == {"bob"} && ("a" in b.lastSeen ==> b.lastSeen["a"] == 0)
  {
    TakenIn(b0, data, ev, WITH_BOB);
    b := Step(b0, Receive(data), WITH_BOB);
    Liveness.MessageHandled(b0, data, WITH_BOB, "a");
  }

  lemma BLearns(v: World) returns (w: World, b: State)
    requires IsTwo(v, WithUser("a", "ann"), WithUser("b", "bob"), [Answer()], [Joined("b", "bob")], true, true)
    ensures Goes(v, TURNS[5], w, HomeOf) && IsTwo(w, WithUser("a", "ann"), b, [], [Joined("b", "bob")], true, true)
    ensures b.active && b.connections == {"bob"} && ("a" in b.lastSeen ==> b.lastSeen["a"] == 0)
  {
    var data, b0 := Bytes(Answer(), "", "", 0), WithUser("b", "bob");
    b := AnswerTaken(b0, data);
    w := DeliveredB(v, WithUser("a", "ann"), b0, Answer(), [Joined("b", "bob")], data, b);
  }

  lemma DeliveredB(v: World, a: State, b: State, p: Publication, ba: seq<Publication>, data: Value, t: State) returns (w: World)
    requires IsTwo(v, a, b, [p], ba, true, true) && a.active && b.active && b.connections == {"bob"}
    requires data == Bytes(p, "", "", 0) && t == Step(b, Receive(data), WITH_BOB) && Sends(b, Receive(data), WITH_BOB) == []
    ensures Goes(v, TO_B, w, HomeOf) && IsTwo(w, a, t, [], ba, true, true)
  {
    Popping(v, a, b, [p], ba, true, true);
    StepOfB(Popped(v, "a", "b"), a, b, [], ba, true, true, Receive(data), WITH_BOB, t, []);
    w := Next(v, TO_B.0, TO_B.1);
  }

  lemma ALearns(v: World, b: State) returns (w: World, a: State)
    requires IsTwo(v, WithUser("a", "ann"), b, [], [Joined("b", "bob")], true, true) && b.active
    ensures Goes(v, TURNS[6], w, HomeOf) && IsTwo(w, a, b, [], [], true, true)
    ensures a.active && a.connections == {"ann"}
  {
    var data, a0 := Bytes(Joined("b", "bob"), "", "", 0), WithUser("a", "ann");
    BytesRead(Joined("b", "bob"), "", "", 0, "r");
    JoinRead("b", "bob");
    TakenIn(a0, data, ReadAs(Joined("b", "bob"), "r"), WITH_ANN);
    a := Step(a0, Receive(data), WITH_ANN);
    w := DeliveredA(v, a0, b, Joined("b", "bob"), data, true, a, []);
  }

  // ---------- the run ----------

  predicate FromStart(run: seq<World>) {
    run != [] && run[0] == Initial({"a", "b"}, "room")
  }

  lemma NoTurns() returns (run: seq<World>)
    ensures AllLead(run, TURNS[..0], HomeOf) && FromStart(run)
    ensures IsTwo(run[0], Fresh("room", "a", true), Fresh("room", "b", true), [], [], false, false)
  {
    FirstWorld();
    run := [Initial({"a", "b"}, "room")];
  }

  lemma OneTurn() returns (run: seq<World>)
    ensures AllLead(run, TURNS[..1], HomeOf) && FromStart(run)
    ensures IsTwo(run[1], Node("a"), Fresh("room", "b", true), [], [], false, false)
  {
    var before := NoTurns();
    var w := AOpens(before[0]);
    run := Extended(before, TURNS, 0, w, HomeOf);
  }

  lemma TwoTurns() returns (run: seq<World>)
    ensures AllLead(run, TURNS[..2], HomeOf) && FromStart(run)
    ensures IsTwo(run[2], WithUser("a", "ann"), Fresh("room", "b", true), [], [], false, false)
  {
    var before := OneTurn();
    var w := AnnJoins(before[1]);
    run := Extended(before, TURNS, 1, w, HomeOf);
  }

  lemma ThreeTurns() returns (run: seq<World>)
    ensures AllLead(run, TURNS[..3], HomeOf) && FromStart(run)
    ensures IsTwo(run[3], WithUser("a", "ann"), Node("b"), [], [Asked()], false, true)
  {
    var before := TwoTurns();
    var w := BOpens(before[2]);
    run := Extended(before, TURNS, 2, w, HomeOf);
  }

  lemma FourTurns() returns (run: seq<World>)
    ensures AllLead(run, TURNS[..4], HomeOf) && FromStart(run)
    ensures IsTwo(run[4], WithUser("a", "ann"), Node("b"), [Answer()], [], true, true)
  {
    var before := ThreeTurns();
    var w := AAnswers(before[3]);
    run := Extended(before, TURNS, 3, w, HomeOf);
  }

  lemma FiveTurns() returns (run: seq<World>)
    ensures AllLead(run, TURNS[..5], HomeOf) && FromStart(run)
    ensures IsTwo(run[5], WithUser("a", "ann"), WithUser("b", "bob"), [Answer()], [Joined("b", "bob")], true, true)
  {
    var before := FourTurns();
    var w := BobJoins(before[4]);
    run := Extended(before, TURNS, 4, w, HomeOf);
  }

  lemma SixthTurn(before: seq<World>) returns (run: seq<World>, b: State)
    requires AllLead(before, TURNS[..5], HomeOf)
    requires IsTwo(before[5], WithUser("a", "ann"), WithUser("b", "bob"), [Answer()], [Joined("b", "bob")], true, true)
    ensures AllLead(run, TURNS[..6], HomeOf) && run[0] == before[0]
    ensures IsTwo(run[6], WithUser("a", "ann"), b, [], [Joined("b", "bob")], true, true)
    ensures b.active && b.connections == {"bob"} && ("a" in b.lastSeen ==> b.lastSeen["a"] == 0)
  {
    var w;
    w, b := BLearns(before[5]);
    run := Extended(before, TURNS, 5, w, HomeOf);
  }

  lemma SixTurns() returns (run: seq<World>, b: State)
    ensures AllLead(run, TURNS[..6], HomeOf) && FromStart(run)
    ensures IsTwo(run[6], WithUser("a", "ann"), b, [], [Joined("b", "bob")], true, true)
    ensures b.active && b.connections == {"bob"} && ("a" in b.lastSeen ==> b.lastSeen["a"] == 0)
  {
    var before := FiveTurns();
    run, b := SixthTurn(before);
  }

  lemma WholeRun() returns (run: seq<World>, a: State, b: State)
    ensures AllLead(run, TURNS[..7], HomeOf) && FromStart(run)
    ensures IsTwo(run[7], a, b, [], [], true, true)
    ensures a.active && b.active && a.connections == {"ann"} && b.connections == {"bob"}
    ensures "a" in b.lastSeen ==> b.lastSeen["a"] == 0
  {
    var before, w;
    before, b := SixTurns();
    w, a := ALearns(before[6], b);
    run := Extended(before, TURNS, 6, w, HomeOf);
  }

  /** Each node has one user, both have caught up, and both hold the assigns of both users. */
  lemma BothCatchUp() returns (run: seq<World>)
    ensures IsRun(run, TURNS, {"a", "b"}, "room", HomeOf)
    ensures var w := run[7];
            && CaughtUp(w, "a") && CaughtUp(w, "b")
            && w.nodes["a"].connections == {"ann"} && w.nodes["b"].connections == {"bob"}
            && HoldSame(w, "ann") && HoldSame(w, "bob")
  {
    var a, b;
    run, a, b := WholeRun();
    assert TURNS[..7] == TURNS;
    BothHold(run);
  }

  predicate HoldSame(w: World, u: string) {
    && "a" in w.nodes && "b" in w.nodes && u in w.nodes["a"].assigns && u in w.nodes["b"].assigns
    && w.nodes["a"].assigns[u] == w.nodes["b"].assigns[u]
  }

  lemma BothHold(run: seq<World>)
    requires IsRun(run, TURNS, {"a", "b"}, "room", HomeOf)
    requires CaughtUp(run[7], "a") && CaughtUp(run[7], "b")
    requires run[7].nodes["a"].connections == {"ann"} && run[7].nodes["b"].connections == {"bob"}
    ensures HoldSame(run[7], "ann") && HoldSame(run[7], "bob")
  {
    var w := run[7];
    RunSound(run, TURNS, {"a", "b"}, "room", HomeOf, 7);
    assert UserRight(w.nodes["a"], "ann", HomeOf) && UserRight(w.nodes["b"], "bob", HomeOf);
    CaughtUpNodesAgree(run, TURNS, {"a", "b"}, "room", HomeOf, 7, "a", "b", "ann");
    CaughtUpNodesAgree(run, TURNS, {"a", "b"}, "room", HomeOf, 7, "a", "b", "bob");
  }

  // ---------- a node dropped though it is open ----------

  /** "b" has heard nothing of "a" for 90 seconds, and sweeps. */
  const SWEEPS: (Convergence.Action, Env) := (Convergence.Local("b", Sweep(90)), Env(["bob"], "r", 100))

  lemma StaleA(s: State)
    requires "a" in s.lastSeen && s.lastSeen["a"] == 0
    ensures "a" in StaleNodes(s.lastSeen, 100, 90)
  {}

  lemma BSweeps(v: World, a: State, b: State) returns (w: World)
    requires IsTwo(v, a, b, [], [], true, true) && b.active && b.connections == {"bob"}
    ensures Goes(v, SWEEPS, w, HomeOf)
    ensures w.nodes.Keys == {"a", "b"} && w.nodes["a"] == a && w.nodes["b"] == Step(b, Sweep(90), SWEEPS.1)
  {
    w := Next(v, SWEEPS.0, SWEEPS.1);
  }

  predicate LostAnn(w: World) {
    && "a" in w.nodes && "b" in w.nodes && w.nodes["a"].active && w.nodes["b"].active
    && "ann" in w.nodes["a"].connections && "ann" in w.nodes["a"].assigns && "ann" !in w.nodes["b"].assigns
  }

  lemma SweptWorld(run: seq<World>, a: State, b: State) returns (w: World)
    requires IsRun(run, TURNS, {"a", "b"}, "room", HomeOf) && IsTwo(run[7], a, b, [], [], true, true)
    requires a.active && b.active && a.connections == {"ann"} && b.connections == {"bob"}
    requires "a" in b.lastSeen ==> b.lastSeen["a"] == 0
    ensures Goes(run[7], SWEEPS, w, HomeOf) && LostAnn(w)
  {
    OnlyALeftWithAnn(run, a, b);
    w := BSweeps(run[7], a, b);
  }

  lemma OnlyALeftWithAnn(run: seq<World>, a: State, b: State)
    requires IsRun(run, TURNS, {"a", "b"}, "room", HomeOf) && IsTwo(run[7], a, b, [], [], true, true)
    requires a.active && b.active && a.connections == {"ann"} && b.connections == {"bob"}
    requires "a" in b.lastSeen ==> b.lastSeen["a"] == 0
    ensures "ann" in a.assigns && "ann" !in Step(b, Sweep(90), SWEEPS.1).assigns
  {
    BothHold(run);
    RunSound(run, TURNS, {"a", "b"}, "room", HomeOf, 7);
    LosesAnn(run[7], a, b);
  }

  /** A sweep drops "a", which is open and has a user: nothing is on its way, and "b" does not know of that user. */
  lemma DroppedThoughOpen() returns (run: seq<World>)
    ensures IsRun(run, TURNS + [SWEEPS], {"a", "b"}, "room", HomeOf) && LostAnn(run[8])
  {
    var before, a, b := WholeRun();
    assert TURNS[..7] == TURNS;
    var w := SweptWorld(before, a, b);
    run := SweptRun(before, w);
  }

  lemma SweptRun(run: seq<World>, w: World) returns (longer: seq<World>)
    requires AllLead(run, TURNS, HomeOf) && FromStart(run) && Goes(run[7], SWEEPS, w, HomeOf)
    ensures IsRun(longer, TURNS + [SWEEPS], {"a", "b"}, "room", HomeOf) && longer[8] == w
  {
    longer := run + [w];
    OneMoreLeads(run, TURNS, 7, w, SWEEPS, longer, TURNS + [SWEEPS], HomeOf);
  }

  lemma LosesAnn(v: World, a: State, b: State)
    requires Sound(v, "room", HomeOf) && IsTwo(v, a, b, [], [], true, true) && HoldSame(v, "ann")
    requires "a" in b.lastSeen ==> b.lastSeen["a"] == 0
    ensures "ann" !in Step(b, Sweep(90), SWEEPS.1).assigns
  {
    assert NodeSound(b, "b", "room", HomeOf);
    assert UserRight(b, "ann", HomeOf) && NodeRight(b, "a");
    StaleA(b);
    var t := Step(b, Sweep(90), SWEEPS.1);
    Agreement.DroppedAgreesWhenEmpty(v, "a", "b", 90, SWEEPS.1, "room", HomeOf);
    assert "ann" in t.assigns ==> "ann" in ViewOf(t, "a", HomeOf);
  }
}
