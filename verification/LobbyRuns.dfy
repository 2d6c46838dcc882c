/** Joins, channel steps and idle checks of one lobby in any interleaving. */
module LobbyRuns {
  import opened ChannelSpec
  import opened NodeSteps
  import opened LobbySpec
  import opened Json
  import Wire

  /** `joins` maps each join in flight to the object it acquired; `checks` are the calls of
      `remove_channel_if_idle` still to come; `closing` are the objects taken out of the map but not closed yet;
      `joined` are the objects that some join acquired. */
  datatype System = System(lobby: Lobby, joins: map<nat, nat>, checks: multiset<string>, closing: set<nat>, joined: set<nat>)

  datatype Action =
    | Acquire(join: nat, name: string)
    | Create(name: string)
    | Finish(join: nat)
    | Act(item: nat, op: Op, env: Env)
    | Check(name: string)
    | CloseNow(item: nat)

  predicate Enabled(y: System, a: Action) {
    && WellFormed(y.lobby)
    && match a
       case Acquire(join, _) => join !in y.joins
       case Create(_) => true
       case Finish(join) => join in y.joins && y.joins[join] < |y.lobby.items| && y.lobby.items[y.joins[join]].inFlight > 0
       case Act(o, op, _) => o < |y.lobby.items| && !op.Shut?
       case Check(name) => name in y.checks
       case CloseNow(o) => o in y.closing && o < |y.lobby.items|
  }

  function Asked(before: State, after: State): nat {
    if after.idleChecks >= before.idleChecks then after.idleChecks - before.idleChecks else 0
  }

  function Times(name: string, n: nat): multiset<string> {
    multiset{}[name := n]
  }

  function Next(y: System, a: Action): System
    requires Enabled(y, a)
  {
    var l := y.lobby;
    match a
    case Acquire(join, name) =>
      var (l1, o) := AcquireForJoin(l, name);
      y.(lobby := l1, joins := y.joins[join := o], joined := y.joined + {o})
    case Create(name) => y.(lobby := GetOrCreate(l, name).0)
    case Finish(join) =>
      var o := y.joins[join];
      y.(lobby := EndJoin(l, o), joins := y.joins - {join}, checks := y.checks + Times(l.items[o].state.name, 1))
    case Act(o, op, env) =>
      var s := l.items[o].state;
      var t := Step(s, op, env);
      y.(lobby := l.(items := l.items[o := l.items[o].(state := t)]), checks := y.checks + Times(s.name, Asked(s, t)))
    case Check(name) =>
      y.(lobby := RemoveIfIdle(l, name), checks := y.checks - Times(name, 1),
         closing := if Removes(l, name) then y.closing + {l.channels[name]} else y.closing)
    case CloseNow(o) => y.(lobby := CloseItem(l, o), closing := y.closing - {o})
  }

  function JoinsOf(joins: map<nat, nat>, o: nat): set<nat> {
    set j | j in joins && joins[j] == o
  }

  /** A join in flight holds the object that its name leads to. */
  predicate JoinRight(y: System, j: nat) {
    j in y.joins ==>
      var o := y.joins[j];
      o < |y.lobby.items| && y.lobby.items[o].state.name in y.lobby.channels
      && y.lobby.channels[y.lobby.items[o].state.name] == o
  }

  predicate ItemRight(y: System, o: nat) {
    o < |y.lobby.items| ==> y.lobby.items[o].inFlight == |JoinsOf(y.joins, o)|
  }

  /** A name in the map leads to a live channel; an idle one that was ever joined has a check coming. */
  predicate NameRight(y: System, name: string)
    requires WellFormed(y.lobby)
  {
    name in y.lobby.channels ==>
      var o := y.lobby.channels[name];
      && y.lobby.items[o].state.active && o !in y.closing
      && (o in y.joined && Idle(y.lobby.items[o]) ==> name in y.checks)
  }

  ghost predicate Sound(y: System) {
    && WellFormed(y.lobby)
    && (forall j :: JoinRight(y, j))
    && (forall o :: ItemRight(y, o))
    && (forall name :: NameRight(y, name))
    && (forall o <- y.joined + y.closing :: o < |y.lobby.items|)
    && (forall j <- y.joins :: y.joins[j] in y.joined)
  }

  // ---------- a channel step that ends all users asks for a check ----------

  lemma {:induction false} LearnNotEmpties(s: State, users: seq<Value>, node: string, now: int)
    ensures NoUsersAnywhere(LearnUsers(s, users, node, now)) ==> NoUsersAnywhere(s)
    ensures LearnUsers(s, users, node, now).idleChecks == s.idleChecks
    decreases |users|
  {
    if users != [] {
      var id := users[0].GetStr("id");
      var s1 := if id.None? then s else LearnUser(s, users[0], id.value, node, now);
      LearnNotEmpties(s1, users[1..], node, now);
      if id.Some? { TrackedNotEmpties(s.nodeUsers, node, id.value); }
    }
  }

  lemma TrackedNotEmpties(nodeUsers: map<string, set<string>>, node: string, id: string)
    ensures var after := Tracked(nodeUsers, node, id);
            (forall n <- after :: after[n] == {}) ==> forall n <- nodeUsers :: nodeUsers[n] == {}
  {
    var after := Tracked(nodeUsers, node, id);
    if node != "" { assert id in after[node]; }
  }

  predicate EmptiesOnlyWithCheck(s: State, t: State) {
    && t.idleChecks >= s.idleChecks
    && (NoUsersAnywhere(t) && !NoUsersAnywhere(s) ==> t.idleChecks > s.idleChecks)
  }

  lemma CommandEmpties(s: State, ev: Wire.Event, now: int)
    ensures EmptiesOnlyWithCheck(s, HandleCommand(s, ev, now))
  {
    var who := ev.payload.GetStr("userId");
    if who.Some? { TrackedNotEmpties(s.nodeUsers, ev.nodeId, who.value); }
  }

  lemma JoinedEmpties(s: State, ev: Wire.Event, now: int)
    ensures EmptiesOnlyWithCheck(s, HandleUserJoined(s, ev, now))
  {
    var who := ev.payload.GetStr("userId");
    if who.Some? { TrackedNotEmpties(s.nodeUsers, ev.nodeId, who.value); }
  }

  lemma ResponseEmpties(s: State, ev: Wire.Event, now: int)
    ensures EmptiesOnlyWithCheck(s, HandleStateResponse(s, ev, now))
  {
    var users := ev.payload.Get("users");
    if users.Some? && users.value.Arr? { LearnNotEmpties(s, users.value.items, ev.nodeId, now); }
  }

  lemma DispatchEmpties(s: State, ev: Wire.Event, env: Env)
    ensures EmptiesOnlyWithCheck(s, Dispatch(s, ev, env))
  {
    match ev.action
    case USER_COMMAND => CommandEmpties(s, ev, env.now);
    case STATE_RESPONSE => ResponseEmpties(s, ev, env.now);
    case USER_JOINED => JoinedEmpties(s, ev, env.now);
    case _ =>
  }

  lemma StepEmpties(s: State, op: Op, env: Env)
    requires !op.Shut?
    ensures EmptiesOnlyWithCheck(s, Step(s, op, env))
  {
    if op.Receive? {
      if Wire.Decode(op.data, env.freshId).Some? {
        DispatchEmpties(s, Wire.Decode(op.data, env.freshId).value, env);
      }
    } else if op.Sweep? {
      SweepEmpties(s, env.now, op.timeout);
    } else {
      LocalEmpties(s, op, env);
    }
  }

  lemma SweepEmpties(s: State, now: int, timeout: int)
    ensures EmptiesOnlyWithCheck(s, CleanupStaleNodes(s, now, timeout))
  {}

  lemma LocalEmpties(s: State, op: Op, env: Env)
    requires !op.Receive? && !op.Sweep? && !op.Shut?
    ensures EmptiesOnlyWithCheck(s, Step(s, op, env))
  {}

  // ---------- the steps keep the invariant ----------

  lemma FinishCount(joins: map<nat, nat>, join: nat, o: nat)
    requires join in joins
    ensures |JoinsOf(joins - {join}, o)| == if joins[join] == o then |JoinsOf(joins, o)| - 1 else |JoinsOf(joins, o)|
    ensures joins[join] == o ==> |JoinsOf(joins, o)| > 0
  {
    var before, after := JoinsOf(joins, o), JoinsOf(joins - {join}, o);
    if joins[join] == o {
      assert join in before && after == before - {join};
    } else {
      assert after == before;
    }
  }

  lemma AcquireCount(joins: map<nat, nat>, join: nat, o: nat, p: nat)
    requires join !in joins
    ensures |JoinsOf(joins[join := o], p)| == if p == o then |JoinsOf(joins, p)| + 1 else |JoinsOf(joins, p)|
  {
    var before, after := JoinsOf(joins, p), JoinsOf(joins[join := o], p);
    assert after == if p == o then before + {join} else before;
  }

  lemma AcquireSound(y: System, join: nat, name: string)
    requires Sound(y) && join !in y.joins
    ensures Sound(Next(y, Acquire(join, name)))
  {
    var y' := Next(y, Acquire(join, name));
    assert NameRight(y, name);
    forall j ensures JoinRight(y', j) { assert JoinRight(y, j); }
    forall p ensures ItemRight(y', p) { AcquireItem(y, join, name, p); }
    forall n ensures NameRight(y', n) { assert NameRight(y, n); }
  }

  lemma AcquireItem(y: System, join: nat, name: string, p: nat)
    requires Sound(y) && join !in y.joins
    ensures ItemRight(Next(y, Acquire(join, name)), p)
  {
    var o := Next(y, Acquire(join, name)).joins[join];
    assert ItemRight(y, p);
    AcquireCount(y.joins, join, o, p);
    if p == o && name !in y.lobby.channels { NoJoinsYet(y); }
  }

  /** No join holds an object that does not exist yet. */
  lemma NoJoinsYet(y: System)
    requires Sound(y)
    ensures JoinsOf(y.joins, |y.lobby.items|) == {}
  {
    forall j | j in y.joins ensures y.joins[j] != |y.lobby.items| { assert JoinRight(y, j); }
  }

  lemma CreateSound(y: System, name: string)
    requires Sound(y)
    ensures Sound(Next(y, Create(name)))
  {
    var y' := Next(y, Create(name));
    forall j ensures JoinRight(y', j) { assert JoinRight(y, j); }
    forall p ensures ItemRight(y', p) {
      assert ItemRight(y, p);
      if p == |y.lobby.items| { NoJoinsYet(y); }
    }
    forall n ensures NameRight(y', n) { assert NameRight(y, n); }
  }

  /** The bracket of a join can always be closed: the count of its object is not zero. */
  lemma FinishEnabled(y: System, join: nat)
    requires Sound(y) && join in y.joins
    ensures Enabled(y, Finish(join))
  {
    assert JoinRight(y, join);
    assert ItemRight(y, y.joins[join]);
    FinishCount(y.joins, join, y.joins[join]);
  }

  lemma FinishSound(y: System, join: nat)
    requires Sound(y) && Enabled(y, Finish(join))
    ensures Sound(Next(y, Finish(join)))
  {
    var y' := Next(y, Finish(join));
    assert JoinRight(y, join);
    forall j ensures JoinRight(y', j) { assert JoinRight(y, j); }
    forall p ensures ItemRight(y', p) {
      assert ItemRight(y, p);
      FinishCount(y.joins, join, p);
    }
    forall n ensures NameRight(y', n) { assert NameRight(y, n); }
  }

  lemma ActSound(y: System, o: nat, op: Op, env: Env)
    requires Sound(y) && Enabled(y, Act(o, op, env))
    ensures Sound(Next(y, Act(o, op, env)))
  {
    var y' := Next(y, Act(o, op, env));
    var s := y.lobby.items[o].state;
    StepIdentity(s, op, env);
    StepEmpties(s, op, env);
    forall j ensures JoinRight(y', j) { assert JoinRight(y, j); }
    forall p ensures ItemRight(y', p) { assert ItemRight(y, p); }
    forall n ensures NameRight(y', n) { assert NameRight(y, n); }
  }

  /** The in-flight count of an object tells whether some join holds it. */
  lemma InFlightMeansJoined(y: System, o: nat)
    requires Sound(y) && o < |y.lobby.items|
    ensures y.lobby.items[o].inFlight > 0 <==> exists j :: j in y.joins && y.joins[j] == o
  {
    assert ItemRight(y, o);
    var held := JoinsOf(y.joins, o);
    if held != {} { var j :| j in held; }
    assert (exists j :: j in y.joins && y.joins[j] == o) ==> held != {} by {
      forall j | j in y.joins && y.joins[j] == o ensures held != {} { assert j in held; }
    }
  }

  lemma CheckSound(y: System, name: string)
    requires Sound(y) && Enabled(y, Check(name))
    ensures Sound(Next(y, Check(name)))
  {
    var y' := Next(y, Check(name));
    if Removes(y.lobby, name) { InFlightMeansJoined(y, y.lobby.channels[name]); }
    forall j ensures JoinRight(y', j) { assert JoinRight(y, j); }
    forall p ensures ItemRight(y', p) { assert ItemRight(y, p); }
    forall n ensures NameRight(y', n) { assert NameRight(y, n); }
  }

  lemma CloseSound(y: System, o: nat)
    requires Sound(y) && Enabled(y, CloseNow(o))
    ensures Sound(Next(y, CloseNow(o)))
  {
    var y' := Next(y, CloseNow(o));
    forall j ensures JoinRight(y', j) { assert JoinRight(y, j); }
    forall p ensures ItemRight(y', p) { assert ItemRight(y, p); }
    forall n ensures NameRight(y', n) { assert NameRight(y, n); }
  }

  lemma NextSound(y: System, a: Action)
    requires Sound(y) && Enabled(y, a)
    ensures Sound(Next(y, a))
  {
    match a
    case Acquire(join, name) => AcquireSound(y, join, name);
    case Create(name) => CreateSound(y, name);
    case Finish(join) => FinishSound(y, join);
    case Act(o, op, env) => ActSound(y, o, op, env);
    case Check(name) => CheckSound(y, name);
    case CloseNow(o) => CloseSound(y, o);
  }

  // ---------- whole runs ----------

  function Empty(nodeId: string, distributed: bool): System {
    System(Lobby(map[], [], nodeId, distributed), map[], multiset{}, {}, {})
  }

  predicate AllEnabled(y: System, actions: seq<Action>)
    decreases |actions|
  {
    actions == [] || (Enabled(y, actions[0]) && AllEnabled(Next(y, actions[0]), actions[1..]))
  }

  function Run(y: System, actions: seq<Action>): System
    requires AllEnabled(y, actions)
    decreases |actions|
  {
    if actions == [] then y else Run(Next(y, actions[0]), actions[1..])
  }

  lemma {:induction false} RunSound(y: System, actions: seq<Action>)
    requires Sound(y) && AllEnabled(y, actions)
    ensures Sound(Run(y, actions))
    decreases |actions|
  {
    if actions != [] {
      NextSound(y, actions[0]);
      RunSound(Next(y, actions[0]), actions[1..]);
    }
  }

  lemma EmptySound(nodeId: string, distributed: bool)
    ensures Sound(Empty(nodeId, distributed))
  {
    assert JoinsOf(map[], 0) == {};
  }

  /** In every interleaving, a join in flight holds a live channel that its name leads to; so two joins in flight
      for one name hold the same channel, and adding a user to it never fails for want of an active channel. */
  lemma SafeAcquisition(nodeId: string, distributed: bool, actions: seq<Action>)
    requires AllEnabled(Empty(nodeId, distributed), actions)
    ensures
      var y := Run(Empty(nodeId, distributed), actions);
      forall j <- y.joins ::
        && y.joins[j] < |y.lobby.items|
        && var s := y.lobby.items[y.joins[j]].state;
           && s.name in y.lobby.channels && y.lobby.channels[s.name] == y.joins[j] && s.active
           && (forall id, assigns :: AddUser(s, id, assigns).1 != Failed(NotActive))
           && (forall k | k in y.joins && y.joins[k] < |y.lobby.items| && y.lobby.items[y.joins[k]].state.name == s.name ::
                 y.joins[k] == y.joins[j])
  {
    EmptySound(nodeId, distributed);
    RunSound(Empty(nodeId, distributed), actions);
    var y := Run(Empty(nodeId, distributed), actions);
    forall j | j in y.joins
      ensures y.joins[j] < |y.lobby.items|
      ensures var s := y.lobby.items[y.joins[j]].state;
              s.name in y.lobby.channels && y.lobby.channels[s.name] == y.joins[j] && s.active
    {
      assert JoinRight(y, j);
      assert NameRight(y, y.lobby.items[y.joins[j]].state.name);
    }
  }

  /** A channel in the map is in use while a join, a local user or a remote user holds it. */
  predicate InUse(y: System, o: nat)
    requires o < |y.lobby.items|
  {
    || (exists j :: j in y.joins && y.joins[j] == o)
    || y.lobby.items[o].state.connections != {}
    || (exists n :: n in y.lobby.items[o].state.nodeUsers && y.lobby.items[o].state.nodeUsers[n] != {})
  }

  /** No leak: with no idle check outstanding, every channel in the map that a join ever acquired is in use.
      (A channel made without a join, and never joined, may stay.) */
  lemma NoLeak(nodeId: string, distributed: bool, actions: seq<Action>, name: string)
    requires AllEnabled(Empty(nodeId, distributed), actions)
    requires var y := Run(Empty(nodeId, distributed), actions);
             y.checks == multiset{} && name in y.lobby.channels && y.lobby.channels[name] in y.joined
    ensures var y := Run(Empty(nodeId, distributed), actions);
            y.lobby.channels[name] < |y.lobby.items| && InUse(y, y.lobby.channels[name])
  {
    EmptySound(nodeId, distributed);
    RunSound(Empty(nodeId, distributed), actions);
    var y := Run(Empty(nodeId, distributed), actions);
    assert NameRight(y, name);
    var o := y.lobby.channels[name];
    InFlightMeansJoined(y, o);
  }

  /** And nothing in use is ever taken out: what an idle check removes has no join, no local and no remote user. */
  lemma RemovedIsUnused(nodeId: string, distributed: bool, actions: seq<Action>, name: string)
    requires AllEnabled(Empty(nodeId, distributed), actions)
    ensures var y := Run(Empty(nodeId, distributed), actions);
            WellFormed(y.lobby)
            && (name in y.lobby.channels ==>
                  && y.lobby.channels[name] < |y.lobby.items|
                  && (Removes(y.lobby, name) <==> !InUse(y, y.lobby.channels[name])))
  {
    EmptySound(nodeId, distributed);
    RunSound(Empty(nodeId, distributed), actions);
    var y := Run(Empty(nodeId, distributed), actions);
    if name in y.lobby.channels {
      var o := y.lobby.channels[name];
      InFlightMeansJoined(y, o);
    }
  }

  // ---------- exactly the channels that are to be closed are closed ----------

  predicate Mapped(l: Lobby, o: nat) {
    o < |l.items| && l.items[o].state.name in l.channels && l.channels[l.items[o].state.name] == o
  }

  /** A channel object is active if and only if its name leads to it, or it was taken out and its closing is to come. */
  predicate AliveRight(y: System, o: nat) {
    o < |y.lobby.items| ==> (y.lobby.items[o].state.active <==> Mapped(y.lobby, o) || o in y.closing)
  }

  lemma NextAlive(y: System, a: Action, o: nat)
    requires Sound(y) && Enabled(y, a) && AliveRight(y, o)
    ensures AliveRight(Next(y, a), o)
  {
    match a
    case Act(p, op, env) => StepIdentity(y.lobby.items[p].state, op, env);
    case CloseNow(p) => CloseAlive(y, p, o);
    case Acquire(join, name) => AcquireAlive(y, join, name, o);
    case _ =>
  }

  lemma CloseAlive(y: System, p: nat, o: nat)
    requires Sound(y) && Enabled(y, CloseNow(p)) && AliveRight(y, o)
    ensures AliveRight(Next(y, CloseNow(p)), o)
  {
    assert NameRight(y, y.lobby.items[p].state.name);
  }

  lemma AcquireAlive(y: System, join: nat, name: string, o: nat)
    requires Sound(y) && Enabled(y, Acquire(join, name)) && AliveRight(y, o)
    ensures AliveRight(Next(y, Acquire(join, name)), o)
  {
    FoundOrMade(y.lobby, name);
  }

  lemma {:induction false} RunAlive(y: System, actions: seq<Action>, o: nat)
    requires Sound(y) && AllEnabled(y, actions) && AliveRight(y, o)
    ensures AliveRight(Run(y, actions), o)
    decreases |actions|
  {
    if actions != [] {
      NextAlive(y, actions[0], o);
      NextSound(y, actions[0]);
      RunAlive(Next(y, actions[0]), actions[1..], o);
    }
  }

  /** In every run a channel object is active if and only if its name leads to it or its closing is to come, and that
      closing can be made. So a user can be added to it, unless connected already, exactly then. */
  lemma ActiveExactly(nodeId: string, distributed: bool, actions: seq<Action>, o: nat, id: string, assigns: Json.Object)
    requires AllEnabled(Empty(nodeId, distributed), actions)
    ensures
      var y := Run(Empty(nodeId, distributed), actions);
      o < |y.lobby.items| ==>
        && (y.lobby.items[o].state.active <==> Mapped(y.lobby, o) || o in y.closing)
        && (AddUser(y.lobby.items[o].state, id, assigns).1 == Failed(NotActive) <==> !Mapped(y.lobby, o) && o !in y.closing)
        && (o in y.closing ==> Enabled(y, CloseNow(o)))
  {
    EmptySound(nodeId, distributed);
    RunSound(Empty(nodeId, distributed), actions);
    RunAlive(Empty(nodeId, distributed), actions, o);
  }

  lemma {:induction false} StaysClosed(y: System, actions: seq<Action>, o: nat)
    requires Sound(y) && AllEnabled(y, actions) && o < |y.lobby.items| && !y.lobby.items[o].state.active
    ensures o < |Run(y, actions).lobby.items| && !Run(y, actions).lobby.items[o].state.active
    decreases |actions|
  {
    if actions != [] {
      NextStaysClosed(y, actions[0], o);
      NextSound(y, actions[0]);
      StaysClosed(Next(y, actions[0]), actions[1..], o);
    }
  }

  lemma NextStaysClosed(y: System, a: Action, o: nat)
    requires Enabled(y, a) && o < |y.lobby.items| && !y.lobby.items[o].state.active
    ensures o < |Next(y, a).lobby.items| && !Next(y, a).lobby.items[o].state.active
  {
    if a.Act? { StepIdentity(y.lobby.items[a.item].state, a.op, a.env); }
  }

  /** Removal without interruption: an idle channel's name is gone, its object refuses users and keeps none, and
      nothing else has changed; a channel in use is left alone. */
  lemma RemovedAltogether(l: Lobby, name: string, id: string, assigns: Json.Object)
    requires WellFormed(l)
    ensures
      var after := RemoveChannel(l, name);
      if name in l.channels && l.items[l.channels[name]].inFlight == 0 && NoUsersAnywhere(l.items[l.channels[name]].state)
      then
        var o := l.channels[name];
        && after.channels == l.channels - {name} && |after.items| == |l.items| && after.items[o].inFlight == 0
        && AddUser(after.items[o].state, id, assigns).1 == Failed(NotActive) && after.items[o].state.connections == {}
        && (forall p :: 0 <= p < |l.items| && p != o ==> after.items[p] == l.items[p])
      else after == l
  {}

  /** Once the closing of a removed channel has been made, a reference to it is of no use any more, whatever follows: no
      user can be added. */
  lemma ClosedRefusesUsers(nodeId: string, distributed: bool, before: seq<Action>, o: nat, after: seq<Action>, id: string,
                           assigns: Json.Object)
    requires AllEnabled(Empty(nodeId, distributed), before)
    requires var y := Run(Empty(nodeId, distributed), before);
             Enabled(y, CloseNow(o)) && AllEnabled(Next(y, CloseNow(o)), after)
    ensures
      var y := Run(Empty(nodeId, distributed), before);
      var z := Run(Next(y, CloseNow(o)), after);
      o < |z.lobby.items| && AddUser(z.lobby.items[o].state, id, assigns).1 == Failed(NotActive)
  {
    EmptySound(nodeId, distributed);
    RunSound(Empty(nodeId, distributed), before);
    var y := Run(Empty(nodeId, distributed), before);
    RunAlive(Empty(nodeId, distributed), before, o);
    ClosedNow(y, o);
    StaysClosed(Next(y, CloseNow(o)), after, o);
  }

  lemma ClosedNow(y: System, o: nat)
    requires Sound(y) && Enabled(y, CloseNow(o)) && AliveRight(y, o)
    ensures var z := Next(y, CloseNow(o)); Sound(z) && o < |z.lobby.items| && !z.lobby.items[o].state.active
  {
    NextSound(y, CloseNow(o));
    NextAlive(y, CloseNow(o), o);
    assert NameRight(y, y.lobby.items[o].state.name);
  }

  // ---------- what a lobby makes ----------

  /** A name in the map leads to its object and changes nothing; another name gets a new, active channel of that name
      without users, and no name and no object is touched. */
  lemma FoundOrMade(l: Lobby, name: string)
    requires WellFormed(l)
    ensures
      var (after, o) := GetOrCreate(l, name);
      if name in l.channels then after == l && o == l.channels[name]
      else
        && o == |l.items| && |after.items| == o + 1 && after.channels == l.channels[name := o]
        && (forall p :: 0 <= p < o ==> after.items[p] == l.items[p])
        && var s := after.items[o].state;
           s.active && s.name == name && NoUsersAnywhere(s) && s.assigns == map[] && s.presence == map[]
           && after.items[o].inFlight == 0 && IsOf(s, l)
  {}

  /** The channel is on the node of the lobby, and published for other nodes if the lobby's channels are. */
  predicate IsOf(s: State, l: Lobby) {
    s.nodeId == l.nodeId && s.distributed == l.distributed
  }

  predicate AllOf(l: Lobby) {
    forall o :: 0 <= o < |l.items| ==> IsOf(l.items[o].state, l)
  }

  lemma NextOf(y: System, a: Action)
    requires Enabled(y, a) && AllOf(y.lobby)
    ensures var z := Next(y, a);
            AllOf(z.lobby) && z.lobby.nodeId == y.lobby.nodeId && z.lobby.distributed == y.lobby.distributed
  {
    match a
    case Act(o, op, env) => StepIdentity(y.lobby.items[o].state, op, env);
    case Acquire(_, name) => FoundOrMade(y.lobby, name);
    case Create(name) => FoundOrMade(y.lobby, name);
    case _ =>
  }

  lemma {:induction false} RunOf(y: System, actions: seq<Action>)
    requires AllEnabled(y, actions) && AllOf(y.lobby)
    ensures var z := Run(y, actions);
            AllOf(z.lobby) && z.lobby.nodeId == y.lobby.nodeId && z.lobby.distributed == y.lobby.distributed
    decreases |actions|
  {
    if actions != [] {
      NextOf(y, actions[0]);
      RunOf(Next(y, actions[0]), actions[1..]);
    }
  }

  /** In every run all channels of a lobby are on its node, and all or none of them are published for others. */
  lemma AllOnItsNode(nodeId: string, distributed: bool, actions: seq<Action>, o: nat)
    requires AllEnabled(Empty(nodeId, distributed), actions)
    ensures var l := Run(Empty(nodeId, distributed), actions).lobby;
            o < |l.items| ==> l.items[o].state.nodeId == nodeId && l.items[o].state.distributed == distributed
  {
    RunOf(Empty(nodeId, distributed), actions);
  }
}
