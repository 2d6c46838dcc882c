/** An assigns update issued away from the user's home: the home changes, the node that issued it does not. */
module RemoteUpdate {
  import opened Json
  import opened Wire
  import opened ChannelSpec
  import opened NodeSteps
  import opened Moves
  import opened MovedUser
  import Cluster
  import Convergence

  function Updating(key: string, value: Value): Publication {
    Publication(AssignsEvent("room", "r", "ann", key, value, map[key := value]).(nodeId := "c"), "assigns:update")
  }

  function UpdatedAtC(key: string, value: Value): Actions {
    [(Cluster.Local("a", Add("ann", map[])), HERE), (Arrival("c", Joined("a")), HERE),
     (Cluster.Local("c", SetAssign("ann", key, value)), HERE)]
  }

  function ToHome(key: string, value: Value): Actions {
    [(Arrival("a", Updating(key, value)), WITH_ANN)]
  }

  lemma HearsAs(s: State, data: Value, p: Publication, env: Env)
    requires data == Bytes(p, "", "", 0) && env.freshId == "r" && Concerns(s, ReadAs(p, "r"))
    ensures Step(s, Receive(data), env) == Dispatch(s, ReadAs(p, "r"), env)
  {
    BytesRead(p, "", "", 0, "r");
    HandlesRead(s, data, ReadAs(p, "r"), env);
  }

  lemma JoinCarries(n: string)
    ensures ReadAs(Joined(n), "r").payload.GetObj("assigns") == Some(map[])
  {
    assert Classify(Joined(n).ev, "user:joined") == UserJoined;
  }

  /** What the third node knows of the user once it has heard of the join. */
  lemma ThirdLearns()
    ensures KnowsNothing(Heard(Joined("a"), Node("c")))
  {
    JoinRead("a");
    JoinCarries("a");
    HearsAs(Node("c"), Bytes(Joined("a"), "", "", 0), Joined("a"), HERE);
  }

  /** The third node, having heard of the user, who has no assigns yet. */
  predicate KnowsNothing(c: State) {
    c.connections == {} && c.nodeId == "c" && c.name == "room" && c.distributed && "ann" in c.assigns && c.assigns["ann"] == map[]
  }

  lemma UpdateRead(key: string, value: Value)
    ensures var p := Updating(key, value);
            && ReadAs(p, "r").payload == ReadAs(p, "").payload && ReadAs(p, "r").event == ReadAs(p, "").event
            && ReadAs(p, "r").action == ASSIGNS && ReadAs(p, "r").channelName == "room" && ReadAs(p, "r").nodeId == "c"
  {
    assert Classify(Updating(key, value).ev, "assigns:update") == AssignsUpdate;
  }

  lemma HomeHears(c: State, key: string, value: Value)
    requires KnowsNothing(c)
    ensures var h := Step(WithAnn("a"), Receive(Bytes(Updating(key, value), "", "", 0)), WITH_ANN);
            "ann" in h.assigns && h.assigns["ann"] == map[key := value]
  {
    var p := Updating(key, value);
    UpdateRead(key, value);
    HearsAs(WithAnn("a"), Bytes(p, "", "", 0), p, WITH_ANN);
    SendsUpdate(c, key, value);
    AnnComes("a");
    HomeChanges(c, WithAnn("a"), p, key, value);
    SameMerge(WithAnn("a"), ReadAs(p, "r"), ReadAs(p, ""));
  }

  lemma HomeChanges(c: State, h: State, p: Publication, key: string, value: Value)
    requires KnowsNothing(c) && "ann" in h.assigns && h.assigns["ann"] == map[] && UpdateAssignSends(c, "ann", key, value, "r") == [p]
    ensures var after := HandleAssigns(h, ReadAs(p, ""));
            "ann" in after.assigns && after.assigns["ann"] == map[key := value]
  {
    Convergence.RemoteAssignLeavesIssuerBehind(c, h, "ann", key, value, "r");
  }

  lemma SameMerge(h: State, ev: Event, other: Event)
    requires ev.payload == other.payload && ev.event == other.event
    ensures HandleAssigns(h, ev) == HandleAssigns(h, other)
  {}

  lemma SendsUpdate(c: State, key: string, value: Value)
    requires KnowsNothing(c)
    ensures UpdateAssignSends(c, "ann", key, value, "r") == [Updating(key, value)]
    ensures UpdateAssign(c, "ann", key, value).0 == c
  {}

  lemma Issued(w: Cluster.World, key: string, value: Value)
    requires w.nodes == Nodes(Node("a"), Node("b"), Node("c"))
    ensures AllPossible(w, UpdatedAtC(key, value))
    ensures Cluster.Run(w, UpdatedAtC(key, value)).nodes == Nodes(WithAnn("a"), Node("b"), Heard(Joined("a"), Node("c")))
    ensures Updating(key, value) in Cluster.Run(w, UpdatedAtC(key, value)).net
  {
    var c := Heard(Joined("a"), Node("c"));
    var steps := UpdatedAtC(key, value);
    AnnMoves(w, Node("c"));
    var w1 := Cluster.Next(w, steps[0].0, steps[0].1);
    ArrivesAtThird(w1, WithAnn("a"), Node("b"), Node("c"), Joined("a"));
    ThirdLearns();
    IssuesUpdate(Cluster.Next(w1, steps[1].0, steps[1].1), c, key, value);
    ThreeSteps(w, steps[0], steps[1], steps[2]);
    assert steps == [steps[0], steps[1], steps[2]];
  }

  lemma IssuesUpdate(w: Cluster.World, c: State, key: string, value: Value)
    requires w.nodes == Nodes(WithAnn("a"), Node("b"), c) && KnowsNothing(c)
    ensures
      var a := Cluster.Local("c", SetAssign("ann", key, value));
      Cluster.Possible(w, a, HERE) && Cluster.Next(w, a, HERE).nodes == w.nodes
      && Updating(key, value) in Cluster.Next(w, a, HERE).net
  {
    SendsUpdate(c, key, value);
    assert Updating(key, value) in Cluster.SetOf([Updating(key, value)]);
  }

  lemma ArrivesAtHome(w: Cluster.World, h: State, b: State, c: State, p: Publication)
    requires w.nodes == Nodes(h, b, c) && h.connections == {"ann"} && p in w.net
    ensures
      var a := Arrival("a", p);
      AllPossible(w, [(a, WITH_ANN)])
      && Cluster.Run(w, [(a, WITH_ANN)]).nodes == Nodes(Step(h, Receive(Bytes(p, "", "", 0)), WITH_ANN), b, c)
  {
    OneStep(w, (Arrival("a", p), WITH_ANN));
  }

  lemma Ends(w: Cluster.World, key: string, value: Value)
    requires w.nodes == Nodes(Node("a"), Node("b"), Node("c"))
    ensures AllPossible(w, UpdatedAtC(key, value) + ToHome(key, value))
    ensures var nodes := Cluster.Run(w, UpdatedAtC(key, value) + ToHome(key, value)).nodes;
            && "a" in nodes && "c" in nodes && "ann" in nodes["a"].assigns && "ann" in nodes["c"].assigns
            && nodes["a"].assigns["ann"] == map[key := value] && nodes["c"].assigns["ann"] == map[]
  {
    var c := Heard(Joined("a"), Node("c"));
    Issued(w, key, value);
    ThirdLearns();
    AnnComes("a");
    ArrivesAtHome(Cluster.Run(w, UpdatedAtC(key, value)), WithAnn("a"), Node("b"), c, Updating(key, value));
    HomeHears(c, key, value);
    RunConcat(w, UpdatedAtC(key, value), ToHome(key, value));
  }

  /** A run from the start in which a user joins at "a", the third node hears of it, and an update issued there reaches
      the home: the home has the new value, the node that issued it has none. */
  lemma IssuerStaysBehind(key: string, value: Value)
    ensures AllPossible(Cluster.EMPTY, OPENING + (UpdatedAtC(key, value) + ToHome(key, value)))
    ensures var nodes := Cluster.Run(Cluster.EMPTY, OPENING + (UpdatedAtC(key, value) + ToHome(key, value))).nodes;
            && "a" in nodes && "c" in nodes && "ann" in nodes["a"].assigns && "ann" in nodes["c"].assigns
            && nodes["a"].assigns["ann"] == map[key := value] && nodes["c"].assigns["ann"] == map[]
  {
    Opening();
    Ends(Cluster.Run(Cluster.EMPTY, OPENING), key, value);
    RunConcat(Cluster.EMPTY, OPENING, UpdatedAtC(key, value) + ToHome(key, value));
  }
}
