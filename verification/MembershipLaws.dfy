/** What each step decides about the members of a Go channel, said without the functions that compute it: who may join
    and what a new member's entries are, what a removal leaves behind, which cause ends a membership and what is
    announced, and that nothing waits for the end of a membership that is over. */
module MembershipLaws {
  import opened Json
  import opened MembershipSpec
  import opened MembershipRuns

  /** A member whose membership has no cause to end and whose connection is alive. */
  predicate IsAlive(s: State, user: string) {
    user in s.memberships && s.memberships[user] < |s.arena|
    && s.arena[s.memberships[user]].cause.None? && s.arena[s.memberships[user]].conn !in s.lost
  }

  /** Everybody but this user has the same entries as before. */
  ghost predicate OthersStay(s: State, t: State, user: string) {
    forall u :: u != user ==>
      && (u in t.store <==> u in s.store) && (u in s.store ==> t.store[u] == s.store[u])
      && (u in t.connections <==> u in s.connections) && (u in s.connections ==> t.connections[u] == s.connections[u])
      && (u in t.memberships <==> u in s.memberships) && (u in s.memberships ==> t.memberships[u] == s.memberships[u])
  }

  predicate IsOut(s: State, user: string) {
    user !in s.store && user !in s.connections && user !in s.memberships
  }

  /** The words a leave is announced with. */
  function Words(cause: Option<Cause>): string {
    match cause
    case Some(Canceled) => "channel_closed"
    case Some(Because(reason)) => reason
    case None => "connection_closed"
  }

  /** Joining is refused on a channel that is over, to a member who is alive, and over a lost connection. Otherwise
      the user has exactly the given assigns and connection and a new membership, and nobody else is touched; an
      ended membership of the same user was announced first. */
  lemma JoinDecides(s: State, user: string, conn: nat, assigns: Object)
    requires Sound(s)
    ensures
      var (t, outcome) := AddUser(s, user, conn, assigns);
      && (outcome == NotOpen <==> s.done)
      && (outcome == Conflict <==> !s.done && IsAlive(s, user))
      && (outcome == Inactive <==> !s.done && !IsAlive(s, user) && conn in s.lost)
      && (outcome == NotOpen || outcome == Conflict ==> t == s)
      && (outcome == Done <==> !s.done && !IsAlive(s, user) && conn !in s.lost)
      && (outcome == Inactive ==> IsOut(t, user))
  {
    assert UserRight(s, user);
  }

  lemma JoinedEntries(s: State, user: string, conn: nat, assigns: Object)
    requires Sound(s) && AddUser(s, user, conn, assigns).1 == Done
    ensures
      var t, n := AddUser(s, user, conn, assigns).0, |s.arena|;
      && user in t.store && t.store[user] == assigns
      && user in t.connections && t.connections[user] == conn
      && user in t.memberships && t.memberships[user] == n
      && |t.arena| == n + 1 && t.arena[n].user == user && t.arena[n].conn == conn && t.arena[n].cause.None?
      && OthersStay(s, t, user)
  {
    assert UserRight(s, user);
  }

  /** What a join over the remains of an ended membership announces. */
  lemma JoinAnnounces(s: State, user: string, conn: nat, assigns: Object)
    requires Sound(s)
    ensures
      var (t, outcome) := AddUser(s, user, conn, assigns);
      t.left == if (outcome == Done || outcome == Inactive) && user in s.memberships
                then s.left + [Left(user, Words(s.arena[s.memberships[user]].cause), Some(s.memberships[user]))]
                else s.left
  {
    assert UserRight(s, user);
  }

  /** Removing is refused on a channel that is over and for who is no member. Otherwise the user is out, everybody else
      stays, and the leave is announced with the reason given. */
  lemma RemovalDecides(s: State, user: string, reason: string)
    requires Sound(s)
    ensures
      var (t, outcome) := RemoveUser(s, user, reason);
      && (outcome == NotOpen <==> s.done)
      && (outcome == NotFound <==> !s.done && user !in s.memberships)
      && (outcome != Done ==> t == s)
      && (outcome == Done <==> !s.done && user in s.memberships)
      && (outcome == Done ==>
            && IsOut(t, user) && OthersStay(s, t, user)
            && t.left == s.left + [Left(user, reason, Some(s.memberships[user]))])
  {
    assert UserRight(s, user);
  }

  lemma TakenOut(s: State, user: string, reason: string)
    requires Sound(s) && user in s.memberships
    ensures var t := RemoveLocal(s, user, reason, true);
            IsOut(t, user) && OthersStay(s, t, user) && t.left == s.left + [Left(user, reason, Some(s.memberships[user]))]
  {
    assert UserRight(s, user);
  }

  lemma CleanupTakesOut(s: State, i: nat)
    requires Sound(s) && Enabled(s, Cleanup(i)) && Current(s, i)
    ensures var t, u := Step(s, Cleanup(i)), RemoveLocal(s, s.arena[i].user, Words(s.arena[i].cause), true);
            t.store == u.store && t.connections == u.connections && t.memberships == u.memberships && t.left == u.left
  {
    assert RunCleanup(s, i) == RemoveLocal(CleanupRan(s, i), s.arena[i].user, s.arena[i].Reason(), true);
    assert s.arena[i].Reason() == Words(s.arena[i].cause);
  }

  /** A cleanup of a membership that is still in the map takes its user out and announces the cause of its end. */
  lemma CleanupDecides(s: State, i: nat)
    requires Sound(s) && Enabled(s, Cleanup(i))
    ensures
      var t, user := Step(s, Cleanup(i)), s.arena[i].user;
      if Current(s, i)
      then IsOut(t, user) && OthersStay(s, t, user) && t.left == s.left + [Left(user, Words(s.arena[i].cause), Some(i))]
      else t.store == s.store && t.connections == s.connections && t.memberships == s.memberships && t.left == s.left
  {
    if Current(s, i) {
      CleanupTakesOut(s, i);
      TakenOut(s, s.arena[i].user, Words(s.arena[i].cause));
      OthersSame(s, RemoveLocal(s, s.arena[i].user, Words(s.arena[i].cause), true), Step(s, Cleanup(i)), s.arena[i].user);
    }
  }

  lemma OthersSame(s: State, t: State, w: State, user: string)
    requires OthersStay(s, t, user) && t.store == w.store && t.connections == w.connections && t.memberships == w.memberships
    ensures OthersStay(s, w, user)
  {}

  // ---------- why a membership ends ----------

  /** The cause a step gives to a membership that had none. */
  function NewCause(s: State, op: Op, i: nat): Option<Cause>
    requires Indexed(s) && i < |s.arena|
  {
    match op
    case Remove(user, reason) => if !s.done && user == s.arena[i].user && Current(s, i) then Some(Because(reason)) else None
    case Connection(j) => if j == i then Some(Because("connection_closed")) else None
    case CancelParent => Some(Canceled)
    case CloseOp => if s.done then None else Some(Canceled)
    case Destroy => if s.done then None else Some(Canceled)
    case Add(user, _, _) =>
      if !s.done && user == s.arena[i].user && Current(s, i) && s.arena[i].conn in s.lost
      then Some(Because("connection_closed")) else None
    case _ => None
  }

  predicate SamePlace(m: Membership, n: Membership) {
    n.user == m.user && n.conn == m.conn
  }

  /** The cause of a membership after it was released. */
  lemma ReleasedCause(s: State, user: string, reason: string, destroyWhenEmpty: bool, i: nat)
    requires Sound(s) && i < |s.arena|
    ensures var t := RemoveLocal(s, user, reason, destroyWhenEmpty);
            |t.arena| == |s.arena| && SamePlace(s.arena[i], t.arena[i])
            && t.arena[i].cause == if s.arena[i].cause.None? && Holds(s.memberships, user, i) then Some(Because(reason))
                                   else s.arena[i].cause
  {
    assert UserRight(s, user);
  }

  lemma JoinCause(s: State, user: string, conn: nat, assigns: Object, i: nat)
    requires Sound(s) && i < |s.arena|
    ensures
      var t := AddUser(s, user, conn, assigns).0;
      i < |t.arena| && SamePlace(s.arena[i], t.arena[i])
      && t.arena[i].cause == if s.arena[i].cause.Some? then s.arena[i].cause else NewCause(s, Add(user, conn, assigns), i)
  {
    assert UserRight(s, user) && UserRight(s, s.arena[i].user);
    if user in s.memberships && !s.done && !IsAlive(s, user) {
      ReleasedCause(s, user, s.arena[s.memberships[user]].Reason(), false, i);
    }
  }

  lemma RemovalCause(s: State, user: string, reason: string, i: nat)
    requires Sound(s) && i < |s.arena|
    ensures
      var t := RemoveUser(s, user, reason).0;
      i < |t.arena| && SamePlace(s.arena[i], t.arena[i])
      && t.arena[i].cause == if s.arena[i].cause.Some? then s.arena[i].cause else NewCause(s, Remove(user, reason), i)
  {
    assert UserRight(s, user) && UserRight(s, s.arena[i].user);
    ReleasedCause(s, user, reason, true, i);
  }

  lemma CleanupCause(s: State, j: nat, i: nat)
    requires Sound(s) && Enabled(s, Cleanup(j)) && i < |s.arena|
    ensures var t := Step(s, Cleanup(j));
            i < |t.arena| && SamePlace(s.arena[i], t.arena[i]) && t.arena[i].cause == s.arena[i].cause
  {
    assert MemberRight(s, j);
    assert CleanupRan(s, j).arena[j].cause.Some?;
  }

  lemma CloseCause(s: State, i: nat)
    requires i < |s.arena|
    ensures var t := Close(s);
            i < |t.arena| && SamePlace(s.arena[i], t.arena[i])
            && t.arena[i].cause == if s.arena[i].cause.Some? then s.arena[i].cause
                                   else if s.done then None else Some(Canceled)
  {}

  /** The first cause of an end stays; where there was none, the step decides. */
  lemma CauseDecided(s: State, op: Op, i: nat)
    requires Sound(s) && Enabled(s, op) && i < |s.arena|
    ensures
      var t := Step(s, op);
      i < |t.arena| && SamePlace(s.arena[i], t.arena[i])
      && t.arena[i].cause == if s.arena[i].cause.Some? then s.arena[i].cause else NewCause(s, op, i)
  {
    match op
    case Add(user, conn, assigns) => JoinCause(s, user, conn, assigns, i);
    case Remove(user, reason) => RemovalCause(s, user, reason, i);
    case Cleanup(j) => CleanupCause(s, j, i);
    case CloseOp => CloseCause(s, i);
    case Destroy => CloseCause(s.(destroys := s.destroys - 1), i);
    case _ =>
  }

  /** A channel is over once its context ends or it is closed or destroyed, and a connection is lost when it is. */
  lemma OverAndLost(s: State, op: Op)
    requires Sound(s) && Enabled(s, op)
    ensures var t := Step(s, op);
            && (t.done <==> s.done || op == CancelParent || op == CloseOp || op == Destroy)
            && t.lost == s.lost + (if op.Lose? then {op.conn} else {})
  {}

  /** A destruction is started by a removal or a cleanup that takes out the last member, if there is a handler. */
  lemma DestroysCounted(s: State, op: Op)
    requires Sound(s) && Enabled(s, op)
    ensures var t := Step(s, op);
            t.destroys == s.destroys - (if op == Destroy then 1 else 0)
                          + (if s.destroyable && (op.Remove? || op.Cleanup?) && |s.store| > 0 && |t.store| == 0 then 1 else 0)
  {
    match op
    case Remove(user, _) => assert UserRight(s, user);
    case Cleanup(i) => assert UserRight(s, s.arena[i].user);
    case Add(user, _, _) => assert UserRight(s, user);
    case _ =>
  }

  // ---------- nothing waits for the end of what is over ----------

  predicate Settled(s: State, i: nat) {
    i < |s.arena| && !Current(s, i) ==> s.arena[i].connection != Waiting && s.arena[i].cleanup != Waiting
  }

  ghost predicate AllSettled(s: State) {
    forall i: nat :: Settled(s, i)
  }

  lemma RemovalSettles(s: State, user: string, reason: string, destroyWhenEmpty: bool)
    requires Sound(s) && AllSettled(s)
    ensures AllSettled(RemoveLocal(s, user, reason, destroyWhenEmpty))
  {
    var t := RemoveLocal(s, user, reason, destroyWhenEmpty);
    assert UserRight(s, user);
    forall i: nat ensures Settled(t, i) { assert Settled(s, i); }
  }

  lemma JoinSettles(s: State, user: string, conn: nat, assigns: Object)
    requires Sound(s) && AllSettled(s)
    ensures AllSettled(AddUser(s, user, conn, assigns).0)
  {
    var t, w := Cleared(s, user), AddUser(s, user, conn, assigns).0;
    ClearedSound(s, user);
    if user in s.memberships { RemovalSettles(s, user, s.arena[s.memberships[user]].Reason(), false); }
    forall i: nat ensures Settled(w, i) { assert Settled(s, i) && Settled(t, i) && UserRight(t, user); }
  }

  lemma CleanupSettles(s: State, i: nat)
    requires Sound(s) && AllSettled(s) && Enabled(s, Cleanup(i))
    ensures AllSettled(RunCleanup(s, i))
  {
    var t := RunCleanup(s, i);
    assert UserRight(s, s.arena[i].user);
    forall j: nat ensures Settled(t, j) { assert Settled(s, j); }
  }

  lemma SettledStep(s: State, op: Op)
    requires Sound(s) && Enabled(s, op) && AllSettled(s)
    ensures AllSettled(Step(s, op))
  {
    var t := Step(s, op);
    match op
    case Add(user, conn, assigns) => JoinSettles(s, user, conn, assigns);
    case Remove(user, reason) => RemovalSettles(s, user, reason, true);
    case Cleanup(i) => CleanupSettles(s, i);
    case _ => forall i: nat ensures Settled(t, i) { assert Settled(s, i); }
  }

  lemma {:induction false} SettledRun(s: State, ops: seq<Op>)
    requires Sound(s) && AllSettled(s) && Runs(s, ops)
    ensures AllSettled(After(s, ops))
    decreases |ops|
  {
    if ops != [] {
      StepSound(s, ops[0]);
      SettledStep(s, ops[0]);
      SettledRun(Step(s, ops[0]), ops[1..]);
    }
  }

  /** In every run no callback waits for a membership that is not in the map any more. */
  lemma NothingWaitsForTheEnded(destroyable: bool, ops: seq<Op>, i: nat)
    requires Runs(Fresh(destroyable), ops)
    ensures var s := After(Fresh(destroyable), ops);
            i < |s.arena| && !Current(s, i) ==> s.arena[i].connection != Waiting && s.arena[i].cleanup != Waiting
  {
    FreshSound(destroyable);
    SettledRun(Fresh(destroyable), ops);
    assert Settled(After(Fresh(destroyable), ops), i);
  }

  // ---------- how callbacks move ----------

  /** A callback that waits may be started or stopped; one that was started runs, once, and cannot be stopped. */
  predicate MayBecome(before: Watch, after: Watch, runs: bool) {
    match before
    case Waiting => after == Waiting || after == Started || after == Stopped
    case Started => after == if runs then Ran else Started
    case _ => after == before
  }

  predicate CallbacksMove(m: Membership, n: Membership, op: Op, i: nat) {
    MayBecome(m.connection, n.connection, op == Connection(i)) && MayBecome(m.cleanup, n.cleanup, op == Cleanup(i))
  }

  lemma RemovalMoves(s: State, user: string, reason: string, destroyWhenEmpty: bool, op: Op, i: nat)
    requires Sound(s) && i < |s.arena| && !op.Connection? && !op.Cleanup?
    ensures CallbacksMove(s.arena[i], RemoveLocal(s, user, reason, destroyWhenEmpty).arena[i], op, i)
  {
    assert UserRight(s, user);
  }

  lemma CleanupMoves(s: State, j: nat, i: nat)
    requires Sound(s) && Enabled(s, Cleanup(j)) && i < |s.arena|
    ensures CallbacksMove(s.arena[i], Step(s, Cleanup(j)).arena[i], Cleanup(j), i)
  {
    assert UserRight(s, s.arena[j].user);
  }

  lemma CallbackMoves(s: State, op: Op, i: nat)
    requires Sound(s) && Enabled(s, op) && i < |s.arena|
    ensures i < |Step(s, op).arena| && CallbacksMove(s.arena[i], Step(s, op).arena[i], op, i)
  {
    CauseDecided(s, op, i);
    match op
    case Add(user, _, _) =>
      if user in s.memberships { RemovalMoves(s, user, s.arena[s.memberships[user]].Reason(), false, op, i); }
    case Remove(user, reason) => RemovalMoves(s, user, reason, true, op, i);
    case Cleanup(j) => CleanupMoves(s, j, i);
    case _ =>
  }

  /** Both callbacks start at once if what they wait for has happened before they were set, and wait otherwise. */
  lemma SetLate(m: Membership, lost: set<nat>)
    ensures
      var n := m.Watched(lost);
      && (n.connection == Started <==> m.conn in lost) && (n.connection == Waiting <==> m.conn !in lost)
      && (n.cleanup == Started <==> m.cause.Some?) && (n.cleanup == Waiting <==> m.cause.None?)
      && n.cause == m.cause && SamePlace(m, n)
  {}
}
