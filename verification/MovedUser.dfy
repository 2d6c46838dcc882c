/** A user who moves from one node to another, and a third node that hears of it in the wrong order. */
module MovedUser {
  import opened Json
  import opened Wire
  import opened ChannelSpec
  import opened NodeSteps
  import opened Moves
  import Cluster

  const HERE := Env([], "r", 0)
  const WITH_ANN := Env(["ann"], "r", 0)

  function Joined(n: string): Publication {
    Publication(JoinedEvent("room", "r", "ann", map[]).(nodeId := n), "user:joined")
  }

  function Gone(n: string): Publication {
    Publication(LeftEvent("room", "r", "ann").(nodeId := n), "user:left")
  }

  function Node(n: string): State {
    Start(Fresh("room", n, true))
  }

  function WithAnn(n: string): State {
    AddUser(Node(n), "ann", map[]).0
  }

  function Arrival(n: string, p: Publication): Cluster.Action {
    Cluster.Deliver(n, p, "", "", 0)
  }

  /** What a node makes of one message. */
  function Heard(p: Publication, s: State): State {
    Step(s, Receive(Bytes(p, "", "", 0)), HERE)
  }

  lemma AnnComes(n: string)
    requires n != ""
    ensures WithAnn(n).connections == {"ann"} && Sends(Node(n), Add("ann", map[]), HERE) == [Joined(n)]
    ensures Sends(WithAnn(n), Remove("ann"), WITH_ANN) == [Gone(n)]
  {}

  lemma JoinRead(n: string)
    ensures var ev := ReadAs(Joined(n), "r");
            ev.action == USER_JOINED && ev.nodeId == n && ev.channelName == "room"
            && ev.payload.GetStr("userId") == Some("ann")
  {
    assert Classify(Joined(n).ev, "user:joined") == UserJoined;
  }

  lemma LeaveRead(n: string)
    ensures var ev := ReadAs(Gone(n), "r");
            ev.action == USER_LEFT && ev.nodeId == n && ev.channelName == "room"
            && ev.payload.GetStr("userId") == Some("ann")
  {
    assert Classify(Gone(n).ev, "user:left") == UserLeft;
  }

  lemma Hears(s: State, p: Publication)
    requires var ev := ReadAs(p, "r");
             s.name == "room" == ev.channelName && ev.nodeId != s.nodeId && ev.nodeId != ""
             && (ev.action == USER_JOINED || ev.action == USER_LEFT) && ev.payload.GetStr("userId") == Some("ann")
             && "ann" !in s.connections
    ensures var ev := ReadAs(p, "r");
            ChangeOf(s, Receive(Bytes(p, "", "", 0)), HERE)
            == if ev.action == USER_JOINED then Learns({"ann"}, ev.nodeId) else Forgets("ann", ev.nodeId)
    ensures ReadsComplete(Receive(Bytes(p, "", "", 0)), HERE)
  {
    BytesRead(p, "", "", 0, "r");
  }

  /** The third node hears of the join at "a", of the join at "b" and last of the leave from "a". */
  lemma ThirdNode()
    ensures var s1 := Heard(Joined("a"), Node("c"));
            var s2 := Heard(Joined("b"), s1);
            var s3 := Heard(Gone("a"), s2);
            && TablesAgree(s1) && OnePlaceEach(s1)
            && TablesAgree(s2) && !OnePlaceEach(s2)
            && !TablesAgree(s3) && "ann" !in s3.assigns && RecordedAt(s3, "ann", "b")
  {
    var s0 := Node("c");
    var s1 := Heard(Joined("a"), s0);
    JoinRead("a");
    Hears(s0, Joined("a"));
    var a := Receive(Bytes(Joined("a"), "", "", 0));
    StepChanges(s0, a, HERE);
    StepIdentity(s0, a, HERE);
    StepKeepsTables(s0, a, HERE);
    StepKeepsPlaces(s0, a, HERE);
    assert RecordedAt(s1, "ann", "a") && "ann" !in s1.connections;
    SecondJoin(s1);
    var s2 := Heard(Joined("b"), s1);
    LastLeave(s2);
  }

  lemma SecondJoin(s: State)
    requires s.name == "room" && s.nodeId == "c" && TablesAgree(s) && OnePlaceEach(s)
    requires RecordedAt(s, "ann", "a") && "ann" !in s.connections
    ensures var t := Heard(Joined("b"), s);
            TablesAgree(t) && !OnePlaceEach(t) && RecordedAt(t, "ann", "b")
            && t.name == "room" && t.nodeId == "c" && "ann" !in t.connections
  {
    var b := Receive(Bytes(Joined("b"), "", "", 0));
    JoinRead("b");
    Hears(s, Joined("b"));
    StepChanges(s, b, HERE);
    StepIdentity(s, b, HERE);
    StepKeepsTables(s, b, HERE);
    StepKeepsPlaces(s, b, HERE);
    assert RecordedOutside(s, "ann", {"b"});
  }

  lemma LastLeave(s: State)
    requires s.name == "room" && s.nodeId == "c" && TablesAgree(s) && RecordedAt(s, "ann", "b") && "ann" !in s.connections
    ensures var t := Heard(Gone("a"), s);
            !TablesAgree(t) && "ann" !in t.assigns && RecordedAt(t, "ann", "b")
  {
    var l := Receive(Bytes(Gone("a"), "", "", 0));
    LeaveRead("a");
    Hears(s, Gone("a"));
    StepChanges(s, l, HERE);
    StepKeepsTables(s, l, HERE);
    assert RecordedOutside(s, "ann", {"a"});
    assert "ann" in Heard(Gone("a"), s).assigns <==> AssignedAfter(s, Forgets("ann", "a"), "ann");
    assert RecordedAt(Heard(Gone("a"), s), "ann", "b") <==> RecordedAfter(s, Forgets("ann", "a"), "ann", "b");
  }

  type Actions = seq<(Cluster.Action, Env)>

  const OPENING: Actions := [
    (Cluster.Open("a", "room"), HERE), (Cluster.Open("b", "room"), HERE), (Cluster.Open("c", "room"), HERE)]

  const AT_A: Actions := [
    (Cluster.Local("a", Add("ann", map[])), HERE), (Arrival("c", Joined("a")), HERE), (Cluster.Local("a", Remove("ann")), WITH_ANN)]

  const AT_B: Actions := [
    (Cluster.Local("b", Add("ann", map[])), HERE), (Arrival("c", Joined("b")), HERE), (Arrival("c", Gone("a")), HERE)]

  lemma OneStep(w: Cluster.World, x: (Cluster.Action, Env))
    requires Cluster.Possible(w, x.0, x.1)
    ensures AllPossible(w, [x]) && Cluster.Run(w, [x]) == Cluster.Next(w, x.0, x.1)
  {
    assert [x][1..] == [];
  }

  lemma StepFirst(w: Cluster.World, x: (Cluster.Action, Env), rest: Actions)
    requires Cluster.Possible(w, x.0, x.1) && AllPossible(Cluster.Next(w, x.0, x.1), rest)
    ensures AllPossible(w, [x] + rest) && Cluster.Run(w, [x] + rest) == Cluster.Run(Cluster.Next(w, x.0, x.1), rest)
  {
    assert ([x] + rest)[1..] == rest;
  }

  lemma ThreeSteps(w: Cluster.World, x: (Cluster.Action, Env), y: (Cluster.Action, Env), z: (Cluster.Action, Env))
    requires Cluster.Possible(w, x.0, x.1)
    requires var w1 := Cluster.Next(w, x.0, x.1); Cluster.Possible(w1, y.0, y.1)
    requires var w2 := Cluster.Next(Cluster.Next(w, x.0, x.1), y.0, y.1); Cluster.Possible(w2, z.0, z.1)
    ensures AllPossible(w, [x, y, z])
    ensures Cluster.Run(w, [x, y, z]) == Cluster.Next(Cluster.Next(Cluster.Next(w, x.0, x.1), y.0, y.1), z.0, z.1)
  {
    var w1 := Cluster.Next(w, x.0, x.1);
    OneStep(Cluster.Next(w1, y.0, y.1), z);
    StepFirst(w1, y, [z]);
    StepFirst(w, x, [y] + [z]);
    assert [x, y, z] == [x] + ([y] + [z]);
  }

  lemma {:induction false} RunConcat(w: Cluster.World, a: Actions, b: Actions)
    requires AllPossible(w, a) && AllPossible(Cluster.Run(w, a), b)
    ensures AllPossible(w, a + b) && Cluster.Run(w, a + b) == Cluster.Run(Cluster.Run(w, a), b)
    decreases |a|
  {
    if a == [] {
      assert a + b == b;
    } else {
      assert (a + b)[1..] == a[1..] + b;
      RunConcat(Cluster.Next(w, a[0].0, a[0].1), a[1..], b);
    }
  }

  function Nodes(a: State, b: State, c: State): map<string, State> {
    map["a" := a, "b" := b, "c" := c]
  }

  lemma OpenAll(w: Cluster.World)
    requires w.nodes == map[]
    ensures
      var w1 := Cluster.Next(w, Cluster.Open("a", "room"), HERE);
      var w2 := Cluster.Next(w1, Cluster.Open("b", "room"), HERE);
      var w3 := Cluster.Next(w2, Cluster.Open("c", "room"), HERE);
      && Cluster.Possible(w, Cluster.Open("a", "room"), HERE) && Cluster.Possible(w1, Cluster.Open("b", "room"), HERE)
      && Cluster.Possible(w2, Cluster.Open("c", "room"), HERE)
      && w3.nodes == Nodes(Node("a"), Node("b"), Node("c"))
  {}

  /** The two joins and the leave as the homes see them. */
  lemma AnnMoves(w: Cluster.World, c: State)
    requires w.nodes == Nodes(Node("a"), Node("b"), c) && c.connections == {}
    ensures
      var add := Cluster.Local("a", Add("ann", map[]));
      var w1 := Cluster.Next(w, add, HERE);
      && Cluster.Possible(w, add, HERE) && w1.nodes == Nodes(WithAnn("a"), Node("b"), c) && Joined("a") in w1.net
  {
    AnnComes("a");
    assert Joined("a") in Cluster.SetOf([Joined("a")]);
  }

  lemma AnnLeaves(w: Cluster.World, c: State)
    requires w.nodes == Nodes(WithAnn("a"), Node("b"), c)
    ensures
      var leave := Cluster.Local("a", Remove("ann"));
      var w1 := Cluster.Next(w, leave, WITH_ANN);
      && Cluster.Possible(w, leave, WITH_ANN) && w1.nodes == Nodes(RemoveUser(WithAnn("a"), "ann"), Node("b"), c)
      && Gone("a") in w1.net && w.net <= w1.net
  {
    AnnComes("a");
    assert Gone("a") in Cluster.SetOf([Gone("a")]);
  }

  lemma AnnReturns(w: Cluster.World, a: State, c: State)
    requires w.nodes == Nodes(a, Node("b"), c)
    ensures
      var add := Cluster.Local("b", Add("ann", map[]));
      var w1 := Cluster.Next(w, add, HERE);
      && Cluster.Possible(w, add, HERE) && w1.nodes == Nodes(a, WithAnn("b"), c) && Joined("b") in w1.net && w.net <= w1.net
  {
    AnnComes("b");
    assert Joined("b") in Cluster.SetOf([Joined("b")]);
  }

  lemma ArrivesAtThird(w: Cluster.World, a: State, b: State, c: State, p: Publication)
    requires w.nodes == Nodes(a, b, c) && c.connections == {} && p in w.net
    ensures
      var w1 := Cluster.Next(w, Arrival("c", p), HERE);
      && Cluster.Possible(w, Arrival("c", p), HERE) && w1.nodes == Nodes(a, b, Heard(p, c)) && w.net <= w1.net
  {}

  lemma Opening()
    ensures AllPossible(Cluster.EMPTY, OPENING)
    ensures Cluster.Run(Cluster.EMPTY, OPENING).nodes == Nodes(Node("a"), Node("b"), Node("c"))
  {
    OpenAll(Cluster.EMPTY);
    ThreeSteps(Cluster.EMPTY, OPENING[0], OPENING[1], OPENING[2]);
    assert OPENING == [OPENING[0], OPENING[1], OPENING[2]];
  }

  lemma AtA(w: Cluster.World)
    requires w.nodes == Nodes(Node("a"), Node("b"), Node("c"))
    ensures AllPossible(w, AT_A)
    ensures Cluster.Run(w, AT_A).nodes == Nodes(RemoveUser(WithAnn("a"), "ann"), Node("b"), Heard(Joined("a"), Node("c")))
    ensures Gone("a") in Cluster.Run(w, AT_A).net
  {
    AnnMoves(w, Node("c"));
    var w1 := Cluster.Next(w, AT_A[0].0, AT_A[0].1);
    ArrivesAtThird(w1, WithAnn("a"), Node("b"), Node("c"), Joined("a"));
    AnnLeaves(Cluster.Next(w1, AT_A[1].0, AT_A[1].1), Heard(Joined("a"), Node("c")));
    ThreeSteps(w, AT_A[0], AT_A[1], AT_A[2]);
    assert AT_A == [AT_A[0], AT_A[1], AT_A[2]];
  }

  lemma AtB(w: Cluster.World, a: State, c: State)
    requires w.nodes == Nodes(a, Node("b"), c) && Gone("a") in w.net
    requires c.connections == {} && Heard(Joined("b"), c).connections == {}
    ensures AllPossible(w, AT_B)
    ensures Cluster.Run(w, AT_B).nodes == Nodes(a, WithAnn("b"), Heard(Gone("a"), Heard(Joined("b"), c)))
  {
    AnnReturns(w, a, c);
    var w1 := Cluster.Next(w, AT_B[0].0, AT_B[0].1);
    ArrivesAtThird(w1, a, WithAnn("b"), c, Joined("b"));
    ArrivesAtThird(Cluster.Next(w1, AT_B[1].0, AT_B[1].1), a, WithAnn("b"), Heard(Joined("b"), c), Gone("a"));
    ThreeSteps(w, AT_B[0], AT_B[1], AT_B[2]);
    assert AT_B == [AT_B[0], AT_B[1], AT_B[2]];
  }

  /** What the third node holds in the end. */
  function Third(): State {
    Heard(Gone("a"), Heard(Joined("b"), Heard(Joined("a"), Node("c"))))
  }

  lemma MoveRun()
    ensures AllPossible(Cluster.EMPTY, OPENING + AT_A + AT_B)
    ensures Cluster.Run(Cluster.EMPTY, OPENING + AT_A + AT_B).nodes
         == Nodes(RemoveUser(WithAnn("a"), "ann"), WithAnn("b"), Third())
  {
    Opening();
    var w3 := Cluster.Run(Cluster.EMPTY, OPENING);
    AtA(w3);
    var w6 := Cluster.Run(w3, AT_A);
    ThirdHasNobody();
    AtB(w6, RemoveUser(WithAnn("a"), "ann"), Heard(Joined("a"), Node("c")));
    RunConcat(Cluster.EMPTY, OPENING, AT_A);
    RunConcat(Cluster.EMPTY, OPENING + AT_A, AT_B);
  }

  /** A run from the start in which one user is at one node at a time, joins at "a", leaves, and joins at "b"; the
      third node hears of the leave last. It then has the user recorded at "b", where the user is connected, but has
      lost the assigns. */
  lemma MovedUserLost()
    ensures AllPossible(Cluster.EMPTY, OPENING + AT_A + AT_B)
    ensures var nodes := Cluster.Run(Cluster.EMPTY, OPENING + AT_A + AT_B).nodes;
            && "a" in nodes && "b" in nodes && "c" in nodes
            && nodes["a"].connections == {} && "ann" in nodes["b"].connections
            && RecordedAt(nodes["c"], "ann", "b") && "ann" !in nodes["c"].assigns && !TablesAgree(nodes["c"])
  {
    MoveRun();
    ThirdNode();
    assert Nodes(RemoveUser(WithAnn("a"), "ann"), WithAnn("b"), Third())["c"] == Third();
  }

  lemma ThirdHasNobody()
    ensures var c1 := Heard(Joined("a"), Node("c"));
            c1.connections == {} && Heard(Joined("b"), c1).connections == {}
  {
    var c0 := Node("c");
    var c1 := Heard(Joined("a"), c0);
    JoinRead("a");
    JoinRead("b");
    Hears(c0, Joined("a"));
    StepChanges(c0, Receive(Bytes(Joined("a"), "", "", 0)), HERE);
    StepIdentity(c0, Receive(Bytes(Joined("a"), "", "", 0)), HERE);
    assert c1.connections == {};
    Hears(c1, Joined("b"));
    StepChanges(c1, Receive(Bytes(Joined("b"), "", "", 0)), HERE);
  }
}
