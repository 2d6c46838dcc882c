/** Every interleaving of joins, leaves, lost connections, late callbacks and closing of one Go channel. */
module MembershipRuns {
  import opened Json
  import opened MembershipSpec

  datatype Op =
    | Add(user: string, conn: nat, assigns: Object)
    | Remove(user: string, reason: string)
    | Lose(conn: nat)
    | Connection(i: nat)                    // a started connection callback runs
    | Cleanup(i: nat)                       // a started cleanup runs
    | CancelParent
    | CloseOp
    | Destroy

  predicate Enabled(s: State, op: Op) {
    match op
    case Connection(i) => i < |s.arena| && s.arena[i].connection == Started
    case Cleanup(i) => i < |s.arena| && s.arena[i].cleanup == Started
    case Destroy => s.destroys > 0
    case _ => true
  }

  function Step(s: State, op: Op): State
    requires Indexed(s) && Enabled(s, op)
  {
    match op
    case Add(user, conn, assigns) => AddUser(s, user, conn, assigns).0
    case Remove(user, reason) => RemoveUser(s, user, reason).0
    case Lose(conn) => ConnectionLost(s, conn)
    case Connection(i) => RunConnection(s, i)
    case Cleanup(i) => RunCleanup(s, i)
    case CancelParent => ParentCancelled(s)
    case CloseOp => Close(s)
    case Destroy => RunDestroy(s)
  }

  // ---------- the invariant ----------

  /** The three stores have the same keys, and a user's entries belong together. */
  predicate UserRight(s: State, u: string) {
    && (u in s.store <==> u in s.memberships)
    && (u in s.connections <==> u in s.memberships)
    && (u in s.memberships ==>
          var i := s.memberships[u];
          i < |s.arena| && s.arena[i].user == u && u in s.connections && s.connections[u] == s.arena[i].conn)
  }

  /** A membership in the map waits for its end, or the callback that brings the end is on its way. */
  predicate Watching(m: Membership, lost: set<nat>) {
    if m.cause.Some? then m.cleanup == Started
    else m.cleanup == Waiting && m.connection == if m.conn in lost then Started else Waiting
  }

  predicate HasLeft(left: seq<Left>, i: nat) {
    exists k :: 0 <= k < |left| && left[k].membership == Some(i)
  }

  /** Each membership is in the map, or was announced to have left, or was ended by `Close`: one of the three. */
  predicate Placed(s: State, i: nat) {
    && (Current(s, i) ==> !HasLeft(s.left, i) && i !in s.dropped)
    && (HasLeft(s.left, i) ==> i !in s.dropped)
    && (i < |s.arena| ==> Current(s, i) || HasLeft(s.left, i) || i in s.dropped)
  }

  predicate MemberRight(s: State, i: nat) {
    && Placed(s, i)
    && (Current(s, i) ==> Watching(s.arena[i], s.lost) && (s.done ==> s.arena[i].cause.Some?))
    && (i < |s.arena| && s.arena[i].cleanup == Started ==> s.arena[i].cause.Some?)
  }

  /** Every announced leave is of one membership, and no membership is announced twice. */
  predicate LeavesRight(s: State) {
    && (forall k :: 0 <= k < |s.left| ==> LeaveRight(s, s.left[k]))
    && (forall j, k :: 0 <= j < k < |s.left| ==> s.left[j].membership != s.left[k].membership)
  }

  predicate LeaveRight(s: State, l: Left) {
    l.membership.Some? && l.membership.value < |s.arena| && s.arena[l.membership.value].user == l.user
  }

  ghost predicate Sound(s: State) {
    && Indexed(s)
    && (forall u :: UserRight(s, u))
    && (forall i :: MemberRight(s, i))
    && LeavesRight(s)
    && (forall i <- s.dropped :: i < |s.arena|)
  }

  lemma FreshSound(destroyable: bool)
    ensures Sound(Fresh(destroyable))
  {}

  // ---------- removals ----------

  lemma RemoveSound(s: State, user: string, reason: string, destroyWhenEmpty: bool)
    requires Sound(s) && user in s.memberships
    ensures Sound(RemoveLocal(s, user, reason, destroyWhenEmpty))
  {
    var t := RemoveLocal(s, user, reason, destroyWhenEmpty);
    var gone := s.memberships[user];
    assert UserRight(s, user);
    assert Current(s, gone) && MemberRight(s, gone);
    assert t.left == s.left + [Left(user, reason, Some(gone))];
    forall u ensures UserRight(t, u) { assert UserRight(s, u); }
    forall i: nat ensures MemberRight(t, i) {
      assert MemberRight(s, i);
      LeftGrows(s.left, Left(user, reason, Some(gone)), i);
      if i < |s.arena| { assert UserRight(s, s.arena[i].user); }
    }
    forall k | 0 <= k < |t.left| ensures LeaveRight(t, t.left[k]) {
      if k < |s.left| { assert LeaveRight(s, s.left[k]); }
    }
  }

  lemma LeftGrows(left: seq<Left>, l: Left, i: nat)
    ensures HasLeft(left + [l], i) <==> HasLeft(left, i) || l.membership == Some(i)
  {
    if HasLeft(left, i) {
      var k :| 0 <= k < |left| && left[k].membership == Some(i);
      assert (left + [l])[k].membership == Some(i);
    }
    if l.membership == Some(i) { assert (left + [l])[|left|].membership == Some(i); }
  }

  /** Memberships change without any being taken out of the map. */
  ghost predicate SameMap(s: State, t: State) {
    && t.store == s.store && t.connections == s.connections && t.memberships == s.memberships
    && t.left == s.left && t.dropped == s.dropped && |t.arena| == |s.arena|
    && (forall i :: 0 <= i < |s.arena| ==> t.arena[i].user == s.arena[i].user && t.arena[i].conn == s.arena[i].conn)
  }

  predicate StaysRight(t: State, i: nat) {
    && (Current(t, i) ==> Watching(t.arena[i], t.lost) && (t.done ==> t.arena[i].cause.Some?))
    && (i < |t.arena| && t.arena[i].cleanup == Started ==> t.arena[i].cause.Some?)
  }

  lemma SameMapSound(s: State, t: State)
    requires Sound(s) && SameMap(s, t) && forall i :: StaysRight(t, i)
    ensures Sound(t)
  {
    forall u ensures UserRight(t, u) { assert UserRight(s, u); }
    forall i ensures MemberRight(t, i) { assert MemberRight(s, i) && StaysRight(t, i); }
    forall k | 0 <= k < |t.left| ensures LeaveRight(t, t.left[k]) { assert LeaveRight(s, s.left[k]); }
  }

  lemma LoseSound(s: State, conn: nat)
    requires Sound(s)
    ensures Sound(ConnectionLost(s, conn))
  {
    var t := ConnectionLost(s, conn);
    forall i ensures StaysRight(t, i) { assert MemberRight(s, i); }
    SameMapSound(s, t);
  }

  lemma CancelParentSound(s: State)
    requires Sound(s)
    ensures Sound(ParentCancelled(s))
  {
    var t := ParentCancelled(s);
    forall i ensures StaysRight(t, i) { assert MemberRight(s, i); }
    SameMapSound(s, t);
  }

  lemma ConnectionSound(s: State, i: nat)
    requires Sound(s) && Enabled(s, Connection(i))
    ensures Sound(RunConnection(s, i))
  {
    var t := RunConnection(s, i);
    forall j ensures StaysRight(t, j) { assert MemberRight(s, j); }
    SameMapSound(s, t);
  }

  lemma CleanupSound(s: State, i: nat)
    requires Sound(s) && Enabled(s, Cleanup(i))
    ensures Sound(RunCleanup(s, i))
  {
    var m := s.arena[i];
    if Current(s, i) {
      assert MemberRight(s, i);
      RemoveRanSound(s, i);
    } else {
      var t := CleanupRan(s, i);
      forall j ensures StaysRight(t, j) { assert MemberRight(s, j); }
      SameMapSound(s, t);
    }
  }

  /** Whether the cleanup counts as run before or after the removal makes no difference. */
  lemma RemoveRanSound(s: State, i: nat)
    requires Sound(s) && Enabled(s, Cleanup(i)) && Current(s, i)
    ensures Sound(RunCleanup(s, i))
  {
    var m := s.arena[i];
    var t := RemoveLocal(s, m.user, m.Reason(), true);
    assert MemberRight(s, i);
    RemoveSound(s, m.user, m.Reason(), true);
    var u := RunCleanup(s, i);
    assert u == t.(arena := u.arena);
    assert !Current(u, i);
    forall j: nat ensures StaysRight(u, j) {
      assert MemberRight(t, j);
      if j != i && j < |u.arena| { assert u.arena[j] == t.arena[j]; }
    }
    SameMapSound(t, u);
  }

  // ---------- joining ----------

  lemma ClearedSound(s: State, user: string)
    requires Sound(s)
    ensures Sound(Cleared(s, user)) && Cleared(s, user).done == s.done && Cleared(s, user).lost == s.lost
    ensures user in Cleared(s, user).memberships ==> Cleared(s, user) == s && s.arena[s.memberships[user]].Active(s.lost)
  {
    if user in s.memberships && !s.arena[s.memberships[user]].Active(s.lost) {
      RemoveSound(s, user, s.arena[s.memberships[user]].Reason(), false);
    }
  }

  lemma InsertSound(t: State, user: string, conn: nat, assigns: Object)
    requires Sound(t) && !t.done && conn !in t.lost && user !in t.memberships
    ensures var m := Membership(user, conn, None, Unset, Unset).Watched(t.lost);
            Sound(t.(store := t.store[user := assigns], connections := t.connections[user := conn],
                     memberships := t.memberships[user := |t.arena|], arena := t.arena + [m]))
  {
    var m := Membership(user, conn, None, Unset, Unset).Watched(t.lost);
    var w := t.(store := t.store[user := assigns], connections := t.connections[user := conn],
                memberships := t.memberships[user := |t.arena|], arena := t.arena + [m]);
    forall u ensures UserRight(w, u) { assert UserRight(t, u) && UserRight(t, user); }
    forall k | 0 <= k < |t.left| ensures t.left[k].membership != Some(|t.arena|) { assert LeaveRight(t, t.left[k]); }
    forall i ensures MemberRight(w, i) { assert MemberRight(t, i); }
    forall k | 0 <= k < |w.left| ensures LeaveRight(w, w.left[k]) { assert LeaveRight(t, t.left[k]); }
  }

  lemma AddSound(s: State, user: string, conn: nat, assigns: Object)
    requires Sound(s)
    ensures Sound(AddUser(s, user, conn, assigns).0)
  {
    ClearedSound(s, user);
    var t := Cleared(s, user);
    if !s.done && user !in t.memberships && conn !in t.lost {
      assert UserRight(t, user);
      InsertSound(t, user, conn, assigns);
    }
  }

  // ---------- closing ----------

  lemma CloseSound(s: State)
    requires Sound(s)
    ensures Sound(Close(s))
  {
    if !s.done {
      var t := Close(s);
      forall u ensures UserRight(t, u) {}
      forall i ensures MemberRight(t, i) { assert MemberRight(s, i); }
      forall k | 0 <= k < |t.left| ensures LeaveRight(t, t.left[k]) { assert LeaveRight(s, s.left[k]); }
    }
  }

  lemma StepSound(s: State, op: Op)
    requires Sound(s) && Enabled(s, op)
    ensures Sound(Step(s, op))
  {
    match op
    case Add(user, conn, assigns) => AddSound(s, user, conn, assigns);
    case Remove(user, reason) =>
      assert UserRight(s, user);
      if user in s.memberships { RemoveSound(s, user, reason, true); }
    case Lose(conn) => LoseSound(s, conn);
    case Connection(i) => ConnectionSound(s, i);
    case Cleanup(i) => CleanupSound(s, i);
    case CancelParent => CancelParentSound(s);
    case CloseOp => CloseSound(s);
    case Destroy =>
      var t := s.(destroys := s.destroys - 1);
      forall j ensures StaysRight(t, j) { assert MemberRight(s, j); }
      SameMapSound(s, t);
      CloseSound(t);
  }

  // ---------- whole runs ----------

  predicate Runs(s: State, ops: seq<Op>)
    decreases |ops|
  {
    ops == [] || (Indexed(s) && Enabled(s, ops[0]) && Runs(Step(s, ops[0]), ops[1..]))
  }

  function After(s: State, ops: seq<Op>): State
    requires Runs(s, ops)
    decreases |ops|
  {
    if ops == [] then s else After(Step(s, ops[0]), ops[1..])
  }

  lemma {:induction false} RunSound(s: State, ops: seq<Op>)
    requires Sound(s) && Runs(s, ops)
    ensures Sound(After(s, ops))
    decreases |ops|
  {
    if ops != [] {
      StepSound(s, ops[0]);
      RunSound(Step(s, ops[0]), ops[1..]);
    }
  }

  /** In every run the three stores have the same keys; each successful join is in the map, announced once to
      have left, or ended by closing the channel, and never two of these. */
  lemma MembershipsAccounted(destroyable: bool, ops: seq<Op>)
    requires Runs(Fresh(destroyable), ops)
    ensures
      var s := After(Fresh(destroyable), ops);
      && s.store.Keys == s.connections.Keys == s.memberships.Keys
      && (forall u <- s.memberships :: s.memberships[u] < |s.arena| && s.arena[s.memberships[u]].user == u)
      && (forall i :: 0 <= i < |s.arena| ==> Placed(s, i))
      && (forall j, k :: 0 <= j < k < |s.left| ==> s.left[j].membership != s.left[k].membership)
  {
    RunFromFresh(destroyable, ops);
    var s := After(Fresh(destroyable), ops);
    forall u ensures u in s.store.Keys <==> u in s.memberships.Keys
             ensures u in s.connections.Keys <==> u in s.memberships.Keys
             ensures u in s.memberships ==> s.memberships[u] < |s.arena| && s.arena[s.memberships[u]].user == u
    {
      assert UserRight(s, u);
    }
    forall i | 0 <= i < |s.arena| ensures Placed(s, i) { assert MemberRight(s, i); }
  }

  lemma RunFromFresh(destroyable: bool, ops: seq<Op>)
    requires Runs(Fresh(destroyable), ops)
    ensures Sound(After(Fresh(destroyable), ops))
  {
    FreshSound(destroyable);
    RunSound(Fresh(destroyable), ops);
  }

  predicate Quiet(s: State) {
    forall m <- s.arena :: m.connection != Started && m.cleanup != Started
  }

  /** No ghosts: when no callback is on its way, every member's connection is alive and the channel is open. */
  lemma NoGhostMembers(destroyable: bool, ops: seq<Op>)
    requires Runs(Fresh(destroyable), ops) && Quiet(After(Fresh(destroyable), ops))
    ensures
      var s := After(Fresh(destroyable), ops);
      forall u <- s.memberships ::
        s.memberships[u] < |s.arena| && s.arena[s.memberships[u]].Active(s.lost) && !s.done
  {
    RunFromFresh(destroyable, ops);
    var s := After(Fresh(destroyable), ops);
    forall u | u in s.memberships
      ensures s.memberships[u] < |s.arena| && s.arena[s.memberships[u]].Active(s.lost) && !s.done
    {
      assert UserRight(s, u);
      assert Current(s, s.memberships[u]) && MemberRight(s, s.memberships[u]);
      assert s.arena[s.memberships[u]] in s.arena;
    }
  }

  /** A member is the same before and after: the same membership with the same entries. */
  predicate Undisturbed(s: State, t: State, u: string) {
    && u in s.memberships && u in t.memberships && t.memberships[u] == s.memberships[u]
    && u in s.store && u in t.store && t.store[u] == s.store[u]
    && u in s.connections && u in t.connections && t.connections[u] == s.connections[u]
  }

  /** A cleanup removes its own membership, which is over, if it is still in the map; it never touches another,
      so not a later membership of the same user either. */
  lemma CleanupHitsOwnMembership(s: State, i: nat, u: string)
    requires Sound(s) && Enabled(s, Cleanup(i)) && u in s.memberships
    ensures s.memberships[u] != i ==> Undisturbed(s, Step(s, Cleanup(i)), u)
    ensures s.memberships[u] == i ==> u !in Step(s, Cleanup(i)).memberships && s.arena[i].cause.Some?
  {
    assert UserRight(s, u) && MemberRight(s, i);
  }

  /** Nothing but an explicit removal or the closing of the channel ends the membership of a member whose
      connection is alive. */
  lemma ActiveMembersStay(s: State, op: Op, u: string)
    requires Sound(s) && Enabled(s, op) && u in s.memberships && s.arena[s.memberships[u]].Active(s.lost)
    ensures Undisturbed(s, Step(s, op), u)
         || op == Remove(u, if op.Remove? then op.reason else "") || op.CloseOp? || op.Destroy?
  {
    assert UserRight(s, u);
    match op
    case Cleanup(i) => CleanupHitsOwnMembership(s, i, u); assert MemberRight(s, i);
    case Add(user, conn, assigns) => AddKeepsActive(s, user, conn, assigns, u);
    case _ =>
  }

  lemma AddKeepsActive(s: State, user: string, conn: nat, assigns: Object, u: string)
    requires Indexed(s) && UserRight(s, u) && u in s.memberships && s.arena[s.memberships[u]].Active(s.lost)
    ensures Undisturbed(s, AddUser(s, user, conn, assigns).0, u)
  {}

  /** A join that empties the channel: the one member there is has lost its connection, and joins again over a
      connection that is lost as well. */
  predicate RejoinsInVain(s: State, user: string, conn: nat)
    requires Indexed(s)
  {
    && !s.done && s.memberships.Keys == {user}
    && !s.arena[s.memberships[user]].Active(s.lost) && conn in s.lost
  }

  lemma SizeOfStore(s: State, user: string)
    requires Sound(s) && user in s.memberships
    ensures |s.store - {user}| == 0 <==> s.memberships.Keys == {user}
  {
    assert UserRight(s, user);
    forall u ensures u in s.store <==> u in s.memberships { assert UserRight(s, u); }
    assert s.store.Keys == s.memberships.Keys;
    assert (s.store - {user}).Keys == s.store.Keys - {user};
    if |s.store - {user}| == 0 {
      assert s.store.Keys - {user} == {};
    }
  }

  /** Exactly such a join empties a channel that has members; no join starts a destruction. */
  lemma JoinEmpties(s: State, user: string, conn: nat, assigns: Object)
    requires Sound(s) && |s.store| > 0
    ensures AddUser(s, user, conn, assigns).0.destroys == s.destroys
    ensures |AddUser(s, user, conn, assigns).0.store| == 0 <==> RejoinsInVain(s, user, conn)
  {
    ClearedSound(s, user);
    assert UserRight(Cleared(s, user), user);
    if user in s.memberships { SizeOfStore(s, user); }
  }

  lemma RemovalEmpties(s: State, user: string, reason: string)
    requires Sound(s) && s.destroyable && user in s.memberships
    ensures var t := RemoveLocal(s, user, reason, true); |t.store| == 0 <==> t.destroys == s.destroys + 1
  {}

  lemma CleanupEmpties(s: State, i: nat)
    requires Sound(s) && s.destroyable && |s.store| > 0 && Enabled(s, Cleanup(i))
    ensures var t := RunCleanup(s, i); |t.store| == 0 <==> t.destroys == s.destroys + 1
  {
    if Current(s, i) {
      var r := CleanupRan(s, i);
      assert RunCleanup(s, i) == RemoveLocal(r, s.arena[i].user, s.arena[i].Reason(), true);
    }
  }

  /** A step other than closing leaves a channel that had members empty, with no destruction started for it, if
      and only if it is a join of the kind above; what it takes is all there before the step. */
  lemma EmptiedIsDestroyed(s: State, op: Op)
    requires Sound(s) && Enabled(s, op) && s.destroyable && |s.store| > 0 && !op.CloseOp? && !op.Destroy?
    ensures var t := Step(s, op);
            |t.store| == 0 && t.destroys == s.destroys <==> op.Add? && RejoinsInVain(s, op.user, op.conn)
    ensures var t := Step(s, op);
            !op.Add? ==> (|t.store| == 0 <==> t.destroys == s.destroys + 1)
  {
    match op
    case Add(user, conn, assigns) => JoinEmpties(s, user, conn, assigns);
    case Remove(user, reason) =>
      assert UserRight(s, user);
      if user in s.memberships { RemovalEmpties(s, user, reason); }
    case Cleanup(i) => CleanupEmpties(s, i);
    case _ =>
  }

  /** That case happens: one member, its connection lost, joins again over a lost connection. */
  lemma EmptiedButNotDestroyed()
    ensures var ops := [ANN_JOINS, Lose(1), ANN_JOINS, Connection(0)];
            Runs(Fresh(true), ops)
            && var s := After(Fresh(true), ops); |s.store| == 0 && s.destroys == 0 && !s.done && Quiet(s)
  {
    var s1, s2, s3, s4 := AnnSteps();
    FourSteps(Fresh(true), ANN_JOINS, Lose(1), ANN_JOINS, Connection(0));
  }

  const ANN_JOINS := Add("ann", 1, map[])

  lemma AnnSteps() returns (s1: State, s2: State, s3: State, s4: State)
    ensures s1 == Step(Fresh(true), ANN_JOINS) && Indexed(s1)
    ensures s2 == Step(s1, Lose(1)) && Indexed(s2)
    ensures s3 == Step(s2, ANN_JOINS) && Indexed(s3) && Enabled(s3, Connection(0))
    ensures s4 == Step(s3, Connection(0)) && |s4.store| == 0 && s4.destroys == 0 && !s4.done && Quiet(s4)
  {
    s1 := Step(Fresh(true), ANN_JOINS);
    assert s1.arena == [Membership("ann", 1, None, Waiting, Waiting)];
    s2 := Step(s1, Lose(1));
    assert s2.arena == [Membership("ann", 1, None, Started, Waiting)];
    s3 := Step(s2, ANN_JOINS);
    assert s3.arena == [Membership("ann", 1, Some(CONNECTION_CLOSED), Started, Stopped)];
    assert s3.store == map[];
    s4 := Step(s3, Connection(0));
    assert s4.arena == [Membership("ann", 1, Some(CONNECTION_CLOSED), Ran, Stopped)];
  }

  lemma Prepend(s: State, op: Op, rest: seq<Op>)
    requires Indexed(s) && Enabled(s, op) && Runs(Step(s, op), rest)
    ensures Runs(s, [op] + rest) && After(s, [op] + rest) == After(Step(s, op), rest)
  {
    assert ([op] + rest)[1..] == rest;
  }

  lemma FourSteps(s: State, a: Op, b: Op, c: Op, d: Op)
    requires Indexed(s) && Enabled(s, a)
    requires var s1 := Step(s, a); Indexed(s1) && Enabled(s1, b)
    requires var s2 := Step(Step(s, a), b); Indexed(s2) && Enabled(s2, c)
    requires var s3 := Step(Step(Step(s, a), b), c); Indexed(s3) && Enabled(s3, d)
    ensures Runs(s, [a, b, c, d]) && After(s, [a, b, c, d]) == Step(Step(Step(Step(s, a), b), c), d)
  {
    var s1 := Step(s, a);
    var s2 := Step(s1, b);
    var s3 := Step(s2, c);
    Prepend(s3, d, []);
    Prepend(s2, c, [d]);
    Prepend(s1, b, [c, d]);
    Prepend(s, a, [b, c, d]);
    assert [a] + [b, c, d] == [a, b, c, d] && [b] + [c, d] == [b, c, d] && [c] + [d] == [c, d] && [d] + [] == [d];
  }

  /** Closing ends every membership without announcing a leave; so does a destruction that runs late, for those who
      joined after the last member had gone. */
  lemma ClosingEndsUnannounced(s: State, op: Op, i: nat)
    requires Sound(s) && Enabled(s, op) && (op.CloseOp? || op.Destroy?) && Current(s, i)
    ensures var t := Step(s, op);
            t.left == s.left && !HasLeft(t.left, i) && (s.done <==> Current(t, i)) && (!s.done <==> i in t.dropped)
  {
    assert MemberRight(s, i);
  }

  const ANN_LEAVES := Remove("ann", "bye")
  const BOB_JOINS := Add("bob", 2, map[])

  lemma AnnComesAndGoes() returns (s1: State, s2: State)
    ensures s1 == Step(Fresh(true), ANN_JOINS) && Indexed(s1)
    ensures s2 == Step(s1, ANN_LEAVES) && s2.left == [Left("ann", "bye", Some(0))]
    ensures !s2.done && s2.store == map[] && s2.connections == map[] && s2.memberships == map[] && |s2.arena| == 1
            && s2.lost == {} && s2.destroys == 1 && s2.dropped == {}
  {
    s1 := Step(Fresh(true), ANN_JOINS);
    assert s1.arena == [Membership("ann", 1, None, Waiting, Waiting)];
    s2 := Step(s1, ANN_LEAVES);
  }

  lemma BobComesTooLate(s2: State) returns (s3: State, s4: State)
    requires !s2.done && s2.store == map[] && s2.connections == map[] && s2.memberships == map[] && |s2.arena| == 1
             && s2.lost == {} && s2.destroys == 1 && s2.dropped == {}
    ensures Indexed(s2) && s3 == Step(s2, BOB_JOINS) && Indexed(s3) && Enabled(s3, Destroy)
    ensures "bob" in s3.memberships && s3.memberships["bob"] == 1 && |s3.arena| == 2 && s3.arena[1].Active(s3.lost)
    ensures s4 == Step(s3, Destroy) && "bob" !in s4.memberships && 1 in s4.dropped && s4.left == s2.left
  {
    s3 := Step(s2, BOB_JOINS);
    assert s3.arena[1] == Membership("bob", 2, None, Waiting, Waiting);
    s4 := Step(s3, Destroy);
  }

  /** It happens: the last member leaves, another joins, and then the destruction runs. The new member, active until
      then, is out, and only the first one was announced to have left. */
  lemma LateDestructionEndsNewMember()
    ensures var ops := [ANN_JOINS, ANN_LEAVES, BOB_JOINS, Destroy];
            Runs(Fresh(true), ops)
            && var t := After(Fresh(true), ops);
               "bob" !in t.memberships && 1 in t.dropped && t.left == [Left("ann", "bye", Some(0))]
  {
    var s1, s2 := AnnComesAndGoes();
    var s3, s4 := BobComesTooLate(s2);
    FourSteps(Fresh(true), ANN_JOINS, ANN_LEAVES, BOB_JOINS, Destroy);
  }

  // ---------- the same in every run ----------

  lemma CleanupHitsOwnInRuns(destroyable: bool, ops: seq<Op>, i: nat, u: string)
    requires Runs(Fresh(destroyable), ops)
    requires var s := After(Fresh(destroyable), ops); Enabled(s, Cleanup(i)) && u in s.memberships
    ensures var s := After(Fresh(destroyable), ops);
            Indexed(s)
            && (s.memberships[u] != i ==> Undisturbed(s, Step(s, Cleanup(i)), u))
            && (s.memberships[u] == i ==> u !in Step(s, Cleanup(i)).memberships && s.arena[i].cause.Some?)
  {
    RunFromFresh(destroyable, ops);
    CleanupHitsOwnMembership(After(Fresh(destroyable), ops), i, u);
  }

  lemma ActiveMembersStayInRuns(destroyable: bool, ops: seq<Op>, op: Op, u: string)
    requires Runs(Fresh(destroyable), ops)
    requires var s := After(Fresh(destroyable), ops);
             Enabled(s, op) && u in s.memberships && s.memberships[u] < |s.arena| && s.arena[s.memberships[u]].Active(s.lost)
    ensures var s := After(Fresh(destroyable), ops);
            Indexed(s)
            && (Undisturbed(s, Step(s, op), u)
                || op == Remove(u, if op.Remove? then op.reason else "") || op.CloseOp? || op.Destroy?)
  {
    RunFromFresh(destroyable, ops);
    ActiveMembersStay(After(Fresh(destroyable), ops), op, u);
  }

  lemma EmptiedIsDestroyedInRuns(ops: seq<Op>, op: Op)
    requires Runs(Fresh(true), ops)
    requires var s := After(Fresh(true), ops); Enabled(s, op) && |s.store| > 0 && !op.CloseOp? && !op.Destroy?
    ensures var s := After(Fresh(true), ops);
            Indexed(s)
            && var t := Step(s, op);
               |t.store| == 0 && t.destroys == s.destroys <==> op.Add? && RejoinsInVain(s, op.user, op.conn)
  {
    RunFromFresh(true, ops);
    SameHandler(Fresh(true), ops);
    EmptiedIsDestroyed(After(Fresh(true), ops), op);
  }

  lemma {:induction false} SameHandler(s: State, ops: seq<Op>)
    requires Runs(s, ops)
    ensures After(s, ops).destroyable == s.destroyable
    decreases |ops|
  {
    if ops != [] { SameHandler(Step(s, ops[0]), ops[1..]); }
  }
}
