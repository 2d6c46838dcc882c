/** The Go channel as the server keeps it: three stores by user id and one object per membership. A pointer to a
    membership is its index in `arena`, where every membership ever made stays. */
module GoChannel {
  import opened Json
  import opened MembershipSpec

  class ChannelMembership {
    const user: string
    const conn: nat
    var cause: Option<Cause>
    var connection: Watch               // the callback that waits for the connection's end
    var cleanup: Watch                  // the callback that waits for the membership's end

    function Value(): Membership
      reads this
    {
      Membership(user, conn, cause, connection, cleanup)
    }

    constructor (user: string, conn: nat)
      ensures Value() == Membership(user, conn, None, Unset, Unset)
    {
      this.user, this.conn := user, conn;
      cause, connection, cleanup := None, Unset, Unset;
    }

    /** The context's cancel function: starts the cleanup that waits for it. */
    method Cancel(why: Cause)
      modifies this
      ensures Value() == old(Value()).Cancel(why)
    {
      if cause.Some? { return; }
      cause := Some(why);
      if cleanup == Waiting { cleanup := Started; }
    }

    method Watch(lost: set<nat>)
      modifies this
      ensures Value() == old(Value()).Watched(lost)
    {
      connection := if conn in lost then Started else Waiting;
      cleanup := if cause.Some? then Started else Waiting;
    }

    method Close(reason: string)
      modifies this
      ensures Value() == old(Value()).Close(reason)
    {
      if connection == Waiting { connection := Stopped; }
      if cleanup == Waiting { cleanup := Stopped; }
      Cancel(Because(reason));
    }

    method ConnLost(gone: nat)
      modifies this
      ensures Value() == old(Value()).ConnLost(gone)
    {
      if conn == gone && connection == Waiting { connection := Started; }
    }

    method RunConnection()
      modifies this
      ensures Value() == old(Value()).(connection := Ran).Cancel(CONNECTION_CLOSED)
    {
      connection := Ran;
      Cancel(CONNECTION_CLOSED);
    }
  }

  ghost function Values(arena: seq<ChannelMembership>): (ms: seq<Membership>)
    reads arena
    ensures |ms| == |arena|
    ensures forall i :: 0 <= i < |arena| ==> ms[i] == arena[i].Value()
  {
    seq(|arena|, i requires 0 <= i < |arena| reads arena => arena[i].Value())
  }

  class Channel {
    const destroyable: bool
    var store: map<string, Object>
    var connections: map<string, nat>
    var memberships: map<string, nat>
    var arena: seq<ChannelMembership>
    var lost: set<nat>
    var done: bool
    var left: seq<Left>
    var dropped: set<nat>
    var destroys: nat

    ghost predicate Valid()
      reads this`arena, this`memberships
    {
      && (forall i, j :: 0 <= i < j < |arena| ==> arena[i] != arena[j])
      && (forall u <- memberships :: memberships[u] < |arena| && arena[memberships[u]].user == u)
    }

    ghost function Members(): (ms: seq<Membership>)
      reads this`arena, arena
    {
      Values(arena)
    }

    ghost function Model(): State
      reads this, arena
    {
      State(store, connections, memberships, Members(), lost, done, left, dropped, destroys, destroyable)
    }

    constructor (destroyable: bool)
      ensures Valid() && Model() == Fresh(destroyable) && arena == []
    {
      this.destroyable := destroyable;
      store, connections, memberships, arena := map[], map[], map[], [];
      lost, done, left, dropped, destroys := {}, false, [], {}, 0;
    }

    method ReleaseMembership(user: string, reason: string)
      requires Valid()
      modifies this`memberships, arena
      ensures Valid() && arena == old(arena) && memberships == old(memberships) - {user}
      ensures Members() == Released(old(Members()), old(memberships), user, reason)
    {
      if user !in memberships { return; }
      arena[memberships[user]].Close(reason);
      memberships := memberships - {user};
    }

    method RemoveUserLocal(user: string, reason: string, destroyWhenEmpty: bool)
      requires Valid()
      modifies this`memberships, this`store, this`connections, this`left, this`destroys, arena
      ensures Valid() && arena == old(arena)
      ensures Model() == RemoveLocal(old(Model()), user, reason, destroyWhenEmpty)
    {
      RemoveEntries(user, reason);
      DestroyIfEmpty(destroyWhenEmpty);
    }

    /** Everything that `removeUserLocalWithDestroy` does but the destruction. */
    method RemoveEntries(user: string, reason: string)
      requires Valid()
      modifies this`memberships, this`store, this`connections, this`left, arena
      ensures Valid() && arena == old(arena) && memberships == old(memberships) - {user}
      ensures Model() == RemoveLocal(old(Model()), user, reason, false)
    {
      var ended := Ended(memberships, user);
      ReleaseMembership(user, reason);
      ghost var released := Members();
      DeleteEntries(user, reason, ended);
      assert Members() == released;
    }

    /** The user is announced to have left, if it was in the store, and its entries go. */
    method DeleteEntries(user: string, reason: string, ended: Option<nat>)
      modifies this`store, this`connections, this`left
      ensures store == old(store) - {user} && connections == old(connections) - {user}
      ensures left == if user in old(store) then old(left) + [Left(user, reason, ended)] else old(left)
    {
      if user in store { left := left + [Left(user, reason, ended)]; }
      store := store - {user};
      connections := connections - {user};
    }

    method DestroyIfEmpty(destroyWhenEmpty: bool)
      modifies this`destroys
      ensures Model() == old(Model()).(
                destroys := if destroyWhenEmpty && destroyable && |store| == 0 then old(destroys) + 1 else old(destroys))
    {
      if destroyWhenEmpty && destroyable && |store| == 0 { destroys := destroys + 1; }
    }

    method RemoveUser(user: string, reason: string) returns (outcome: Outcome)
      requires Valid()
      modifies this, arena
      ensures Valid() && arena == old(arena)
      ensures (Model(), outcome) == MembershipSpec.RemoveUser(old(Model()), user, reason)
    {
      if done { return NotOpen; }
      if user !in store { return NotFound; }
      RemoveUserLocal(user, reason, true);
      return Done;
    }

    method MarkRan(i: nat)
      requires Valid() && i < |arena|
      modifies arena
      ensures Valid() && arena == old(arena) && Model() == CleanupRan(old(Model()), i)
    {
      arena[i].cleanup := Ran;
      assert Members() == old(Members())[i := old(Members())[i].(cleanup := Ran)];
    }

    method RemoveExpiredMembership(i: nat)
      requires Valid() && i < |arena|
      modifies this, arena
      ensures Valid() && arena == old(arena)
      ensures Model() == RunCleanup(old(Model()), i)
    {
      var membership := arena[i];
      MarkRan(i);
      if membership.user !in memberships || memberships[membership.user] != i { return; }
      RemoveUserLocal(membership.user, membership.Value().Reason(), true);
    }

    method AddUser(user: string, conn: nat, assigns: Object) returns (outcome: Outcome)
      requires Valid()
      modifies this, arena
      ensures Valid() && old(arena) <= arena
      ensures (Model(), outcome) == MembershipSpec.AddUser(old(Model()), user, conn, assigns)
    {
      if done { return NotOpen; }
      if user in memberships {
        var existing := arena[memberships[user]];
        if existing.Value().Active(lost) { return Conflict; }
        RemoveUserLocal(user, existing.Value().Reason(), false);
      }
      assert Model() == Cleared(old(Model()), user);
      if conn in lost { return Inactive; }
      outcome := Insert(user, conn, assigns);
    }

    /** The part of `addUser` that makes the entries. */
    method Insert(user: string, conn: nat, assigns: Object) returns (outcome: Outcome)
      requires Valid() && !done && conn !in lost
      modifies this`store, this`connections, this`memberships, this`arena
      ensures Valid() && old(arena) <= arena
      ensures
        if user in old(store) || user in old(connections) || user in old(memberships)
        then outcome == Conflict && Model() == old(Model())
        else outcome == Done
             && Model() == old(Model()).(
                  store := old(store)[user := assigns], connections := old(connections)[user := conn],
                  memberships := old(memberships)[user := |old(arena)|],
                  arena := old(Members()) + [Membership(user, conn, None, Unset, Unset).Watched(old(lost))])
    {
      if user in store || user in connections || user in memberships { return Conflict; }
      NewMembership(user, conn);
      ghost var members := Members();
      store := store[user := assigns];
      connections := connections[user := conn];
      memberships := memberships[user := |arena| - 1];
      assert Members() == members;
      return Done;
    }

    method NewMembership(user: string, conn: nat)
      requires Valid()
      modifies this`arena
      ensures Valid() && |arena| == |old(arena)| + 1 && old(arena) <= arena && arena[|old(arena)|].user == user
      ensures Members() == old(Members()) + [Membership(user, conn, None, Unset, Unset).Watched(lost)]
    {
      var membership := new ChannelMembership(user, conn);
      membership.Watch(lost);
      arena := arena + [membership];
    }

    method ConnectionLost(conn: nat)
      requires Valid()
      modifies this`lost, arena
      ensures Valid() && arena == old(arena)
      ensures Model() == MembershipSpec.ConnectionLost(old(Model()), conn)
    {
      lost := lost + {conn};
      var i := 0;
      while i < |arena|
        invariant i <= |arena| && lost == old(lost) + {conn}
        invariant forall k :: 0 <= k < i ==> arena[k].Value() == old(arena[k].Value()).ConnLost(conn)
        invariant forall k :: i <= k < |arena| ==> arena[k].Value() == old(arena[k].Value())
      {
        arena[i].ConnLost(conn);
        i := i + 1;
      }
      assert Members() == LoseAll(old(Members()), conn);
    }

    /** The channel's context ends, and the contexts of all memberships with it. */
    method CancelContext()
      requires Valid()
      modifies this`done, arena
      ensures Valid() && arena == old(arena) && done
      ensures Members() == CancelAll(old(Members()), Canceled)
    {
      done := true;
      var i := 0;
      while i < |arena|
        invariant i <= |arena| && done
        invariant forall k :: 0 <= k < i ==> arena[k].Value() == old(arena[k].Value()).Cancel(Canceled)
        invariant forall k :: i <= k < |arena| ==> arena[k].Value() == old(arena[k].Value())
      {
        arena[i].Cancel(Canceled);
        i := i + 1;
      }
      assert Members() == CancelAll(old(Members()), Canceled);
    }

    /** The context around the channel ends. */
    method ParentEnds()
      requires Valid()
      modifies this`done, arena
      ensures Valid() && arena == old(arena)
      ensures Model() == ParentCancelled(old(Model()))
    {
      CancelContext();
    }

    /** Deletes the entries of one user. */
    method Delete(user: string)
      modifies this`store, this`connections
      ensures store == old(store) - {user} && connections == old(connections) - {user}
    {
      store := store - {user};
      connections := connections - {user};
    }

    /** The set of users still to go, while `was` and `all` are what there was at the start. */
    ghost predicate Releasing(users: set<string>, was: map<string, nat>, all: seq<Membership>, reason: string)
      reads this`store, this`connections, this`memberships, this`arena, arena
    {
      && |arena| == |all|
      && (forall u :: u in store || u in connections || u in memberships ==> u in users)
      && (forall u <- users :: (u in memberships <==> u in was) && (u in memberships ==> memberships[u] == was[u]))
      && (forall k :: 0 <= k < |arena| ==>
            ReleasedOr(arena[k].Value(), all[k], Holds(was, all[k].user, k) && all[k].user !in users, reason))
    }

    static predicate ReleasedOr(now: Membership, before: Membership, released: bool, reason: string) {
      now == if released then before.Close(reason) else before
    }

    method ReleaseUser(user: string, reason: string, ghost users: set<string>, ghost was: map<string, nat>,
                       ghost all: seq<Membership>)
      requires Valid() && user in users && Releasing(users, was, all, reason)
      requires forall u <- was :: was[u] < |all| && all[was[u]].user == u
      modifies this`store, this`connections, this`memberships, arena
      ensures Valid() && arena == old(arena) && Releasing(users - {user}, was, all, reason)
    {
      ghost var before := Members();
      ReleaseMembership(user, reason);
      Delete(user);
      ghost var after := Members();
      forall k | 0 <= k < |arena|
        ensures ReleasedOr(arena[k].Value(), all[k], Holds(was, all[k].user, k) && all[k].user !in users - {user}, reason)
      {
        assert arena[k].Value() == after[k];
        assert ReleasedOr(before[k], all[k], Holds(was, all[k].user, k) && all[k].user !in users, reason);
      }
    }

    /** Takes all users out; the members' callbacks are stopped where they have not started. */
    method ReleaseAll(reason: string)
      requires Valid()
      modifies this`store, this`connections, this`memberships, arena
      ensures Valid() && arena == old(arena)
      ensures store == map[] && connections == map[] && memberships == map[]
      ensures Members() == ReleasedAll(old(Members()), old(memberships), reason)
    {
      ghost var was, all := memberships, Members();
      var users := store.Keys + connections.Keys + memberships.Keys;
      while users != {}
        invariant Valid() && arena == old(arena) && Releasing(users, was, all, reason)
        decreases |users|
      {
        var user :| user in users;
        ReleaseUser(user, reason, users, was, all);
        users := users - {user};
      }
      assert store == map[] && connections == map[] && memberships == map[];
      forall k | 0 <= k < |arena| ensures Members()[k] == ReleasedAll(all, was, reason)[k] {
        assert ReleasedOr(arena[k].Value(), all[k], Holds(was, all[k].user, k), reason);
      }
    }

    method CloseOpen()
      requires Valid()
      modifies this`done, this`store, this`connections, this`memberships, this`dropped, arena
      ensures Valid() && arena == old(arena) && done
      ensures store == map[] && connections == map[] && memberships == map[]
      ensures Members() == ReleasedAll(CancelAll(old(Members()), Canceled), old(memberships), "channel_closed")
      ensures dropped == old(dropped) + CurrentOnes(old(Members()), old(memberships))
    {
      RecordDropped();
      ghost var all, was := Members(), memberships;
      CancelContext();
      ReleaseAll("channel_closed");
      assert Members() == ReleasedAll(CancelAll(all, Canceled), was, "channel_closed");
    }

    method Close()
      requires Valid()
      modifies this`done, this`store, this`connections, this`memberships, this`dropped, arena
      ensures Valid() && arena == old(arena)
      ensures Model() == MembershipSpec.Close(old(Model()))
    {
      if done { return; }
      CloseOpen();
    }

    /** The destruction that the last leave started. */
    method Destroy()
      requires Valid() && destroys > 0
      modifies this`done, this`store, this`connections, this`memberships, this`dropped, this`destroys, arena
      ensures Valid() && arena == old(arena)
      ensures Model() == RunDestroy(old(Model()))
    {
      destroys := destroys - 1;
      Close();
    }

    method RunConnectionCallback(i: nat)
      requires Valid() && i < |arena|
      modifies arena
      ensures Valid() && Model() == RunConnection(old(Model()), i)
    {
      arena[i].RunConnection();
      assert Members() == old(Members())[i := arena[i].Value()];
    }

    /** Only a record of which memberships closing ends. */
    method RecordDropped()
      requires Valid()
      modifies this`dropped
      ensures dropped == old(dropped) + CurrentOnes(Members(), memberships)
    {
      dropped := dropped + set i: nat | i < |arena| && Holds(memberships, arena[i].user, i);
    }
  }
}
