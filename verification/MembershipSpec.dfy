/** The members of a Go channel, and the callbacks that end a membership when its connection is gone. A membership
    is named by its number in the order of joining; a callback waits, and once what it waits for has happened it
    is started, to run at some later moment. */
module MembershipSpec {
  import opened Json

  datatype Watch = Unset | Waiting | Stopped | Started | Ran

  datatype Cause = Canceled | Because(reason: string)

  const CONNECTION_CLOSED := Because("connection_closed")

  datatype Membership = Membership(user: string, conn: nat, cause: Option<Cause>, connection: Watch, cleanup: Watch) {
    predicate Active(lost: set<nat>) {
      cause.None? && conn !in lost
    }

    /** The first cause stays; a waiting cleanup is started. */
    function Cancel(why: Cause): Membership {
      if cause.Some? then this
      else this.(cause := Some(why), cleanup := if cleanup == Waiting then Started else cleanup)
    }

    function Watched(lost: set<nat>): Membership {
      this.(connection := if conn in lost then Started else Waiting, cleanup := if cause.Some? then Started else Waiting)
    }

    /** A callback that has started cannot be stopped any more. */
    function Close(reason: string): Membership {
      this.(connection := if connection == Waiting then Stopped else connection,
            cleanup := if cleanup == Waiting then Stopped else cleanup).Cancel(Because(reason))
    }

    function ConnLost(gone: nat): Membership {
      if conn == gone && connection == Waiting then this.(connection := Started) else this
    }

    function Reason(): string {
      match cause
      case None => "connection_closed"
      case Some(Canceled) => "channel_closed"
      case Some(Because(reason)) => reason
    }
  }

  /** A user that left: why, and which membership ended. */
  datatype Left = Left(user: string, reason: string, membership: Option<nat>)

  datatype State = State(
    store: map<string, Object>,
    connections: map<string, nat>,
    memberships: map<string, nat>,
    arena: seq<Membership>,             // every membership ever made, by number
    lost: set<nat>,                     // connections that are gone
    done: bool,                         // the channel's context is cancelled
    left: seq<Left>,                    // the users announced to have left
    dropped: set<nat>,                  // the memberships that `Close` ended
    destroys: nat,                      // destructions started and still to run
    destroyable: bool)                  // a destroy handler is set

  function Fresh(destroyable: bool): State {
    State(map[], map[], map[], [], {}, false, [], {}, 0, destroyable)
  }

  datatype Outcome = Done | NotOpen | Conflict | NotFound | Inactive

  function Released(arena: seq<Membership>, memberships: map<string, nat>, user: string, reason: string): seq<Membership>
    requires user in memberships ==> memberships[user] < |arena|
  {
    if user in memberships then arena[memberships[user] := arena[memberships[user]].Close(reason)] else arena
  }

  /** The membership that ends when a user is removed. */
  function Ended(memberships: map<string, nat>, user: string): Option<nat> {
    if user in memberships then Some(memberships[user]) else None
  }

  /** `removeUserLocalWithDestroy`. */
  function RemoveLocal(s: State, user: string, reason: string, destroyWhenEmpty: bool): State
    requires user in s.memberships ==> s.memberships[user] < |s.arena|
  {
    s.(arena := Released(s.arena, s.memberships, user, reason),
       memberships := s.memberships - {user},
       store := s.store - {user},
       connections := s.connections - {user},
       left := if user in s.store
               then s.left + [Left(user, reason, Ended(s.memberships, user))]
               else s.left,
       destroys := if destroyWhenEmpty && s.destroyable && |s.store - {user}| == 0 then s.destroys + 1 else s.destroys)
  }

  predicate Indexed(s: State) {
    forall u <- s.memberships :: s.memberships[u] < |s.arena|
  }

  /** What is left of a member whose connection is gone makes way for a new membership. */
  function Cleared(s: State, user: string): State
    requires Indexed(s)
  {
    if user in s.memberships && !s.arena[s.memberships[user]].Active(s.lost)
    then RemoveLocal(s, user, s.arena[s.memberships[user]].Reason(), false)
    else s
  }

  function AddUser(s: State, user: string, conn: nat, assigns: Object): (State, Outcome)
    requires Indexed(s)
  {
    if s.done then (s, NotOpen)
    else if user in s.memberships && s.arena[s.memberships[user]].Active(s.lost) then (s, Conflict)
    else
      var t := Cleared(s, user);
      var m := Membership(user, conn, None, Unset, Unset);
      if !m.Active(t.lost) then (t, Inactive)
      else if user in t.store || user in t.connections || user in t.memberships then (t, Conflict)
      else
        (t.(store := t.store[user := assigns], connections := t.connections[user := conn],
            memberships := t.memberships[user := |t.arena|], arena := t.arena + [m.Watched(t.lost)]), Done)
  }

  function RemoveUser(s: State, user: string, reason: string): (State, Outcome)
    requires Indexed(s)
  {
    if s.done then (s, NotOpen)
    else if user !in s.store then (s, NotFound)
    else (RemoveLocal(s, user, reason, true), Done)
  }

  function CancelAll(arena: seq<Membership>, why: Cause): (all: seq<Membership>)
    ensures |all| == |arena|
    ensures forall i :: 0 <= i < |arena| ==> all[i] == arena[i].Cancel(why)
  {
    seq(|arena|, i requires 0 <= i < |arena| => arena[i].Cancel(why))
  }

  function LoseAll(arena: seq<Membership>, gone: nat): (all: seq<Membership>)
    ensures |all| == |arena|
    ensures forall i :: 0 <= i < |arena| ==> all[i] == arena[i].ConnLost(gone)
  {
    seq(|arena|, i requires 0 <= i < |arena| => arena[i].ConnLost(gone))
  }

  /** A connection is gone: the callbacks that waited for that are started. */
  function ConnectionLost(s: State, conn: nat): State {
    s.(lost := s.lost + {conn}, arena := LoseAll(s.arena, conn))
  }

  /** The context around the channel is cancelled, and with it those of its memberships. */
  function ParentCancelled(s: State): State {
    s.(done := true, arena := CancelAll(s.arena, Canceled))
  }

  function RunConnection(s: State, i: nat): State
    requires i < |s.arena|
  {
    s.(arena := s.arena[i := s.arena[i].(connection := Ran).Cancel(CONNECTION_CLOSED)])
  }

  function CleanupRan(s: State, i: nat): State
    requires i < |s.arena|
  {
    s.(arena := s.arena[i := s.arena[i].(cleanup := Ran)])
  }

  /** `removeExpiredMembership`: only the membership that the callback was made for is removed. */
  function RunCleanup(s: State, i: nat): State
    requires i < |s.arena| && Indexed(s)
  {
    var t, m := CleanupRan(s, i), s.arena[i];
    if m.user !in s.memberships || s.memberships[m.user] != i then t
    else RemoveLocal(t, m.user, m.Reason(), true)
  }

  predicate Holds(memberships: map<string, nat>, user: string, i: nat) {
    user in memberships && memberships[user] == i
  }

  /** A membership that is in the map. */
  predicate Current(s: State, i: nat) {
    i < |s.arena| && Holds(s.memberships, s.arena[i].user, i)
  }

  function CurrentOnes(arena: seq<Membership>, memberships: map<string, nat>): set<nat> {
    set i: nat | i < |arena| && Holds(memberships, arena[i].user, i)
  }

  function ReleasedAll(arena: seq<Membership>, memberships: map<string, nat>, reason: string): (all: seq<Membership>)
    ensures |all| == |arena|
    ensures forall i :: 0 <= i < |arena| ==>
              all[i] == if Holds(memberships, arena[i].user, i) then arena[i].Close(reason) else arena[i]
  {
    seq(|arena|, i requires 0 <= i < |arena| =>
      if Holds(memberships, arena[i].user, i) then arena[i].Close(reason) else arena[i])
  }

  function Close(s: State): State {
    if s.done then s
    else
      s.(done := true, arena := ReleasedAll(CancelAll(s.arena, Canceled), s.memberships, "channel_closed"),
         store := map[], connections := map[], memberships := map[],
         dropped := s.dropped + CurrentOnes(s.arena, s.memberships))
  }

  function RunDestroy(s: State): State
    requires s.destroys > 0
  {
    Close(s.(destroys := s.destroys - 1))
  }
}
