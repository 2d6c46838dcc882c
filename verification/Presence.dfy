/** Presence across nodes: what another node holds of a user after handling what the user's node publishes. */
module Presence {
  import opened Json
  import opened Wire
  import opened ChannelSpec
  import opened NodeSteps
  import opened Commands

  /** A presence as it travels: with the id of its user. */
  function Stamped(d: Object, u: string): Object {
    d["userId" := Str(u)]
  }

  /** The presence does not name somebody else as its user. */
  predicate Plain(d: Object, u: string) {
    "userId" in d ==> d["userId"] == Str(u)
  }

  function Seen(s: State, u: string): Option<Object> {
    if u in s.presence then Some(s.presence[u]) else None
  }

  // ---------- one message ----------

  /** The publication of a presence change of `u`, and the object that travels with it. */
  function Change(s: State, kind: string, u: string, d: Object, rid: string, subtype: string): Publication {
    Publication(PresenceEvent(s.name, rid, kind, u, d).(nodeId := s.nodeId), subtype)
  }

  function Travels(d: Object, u: string): Object {
    if "userId" in d then d else Stamped(d, u)
  }

  lemma ChangeRead(s: State, kind: string, u: string, d: Object, rid: string, subtype: string, freshId: string)
    requires (kind == "JOIN" && subtype == "presence:join") || (kind == "UPDATE" && subtype == "presence:update")
    ensures var ev := ReadAs(Change(s, kind, u, d, rid, subtype), freshId);
            && ev.action == PRESENCE && ev.event == "UPDATE" && ev.nodeId == s.nodeId && ev.channelName == s.name
            && ev.payload.GetObj("changed") == Some(Travels(d, u))
  {
    assert !EndsWith(subtype, "remove");
  }

  /** Whose presence an object says it is. */
  function Whose(d: Object, u: string): string {
    match Travels(d, u)["userId"]
    case Str(x) => x
    case _ => ""
  }

  lemma LeaveRead(s: State, u: string, d: Object, rid: string, freshId: string)
    ensures var ev := ReadAs(Change(s, "LEAVE", u, d, rid, "presence:leave"), freshId);
            && ev.action == PRESENCE && ev.event == "LEAVE" && ev.nodeId == s.nodeId && ev.channelName == s.name
            && ev.payload.GetObj("changed") == Some(map["userId" := Str(Whose(d, u))])
  {}

  /** A change is stored under the id that the object says, with the object as it travelled. */
  lemma ChangeStored(m: State, ev: Event, d: Object, u: string, env: Env)
    requires ev.action == PRESENCE && ev.event == "UPDATE" && ev.payload.GetObj("changed") == Some(Travels(d, u))
    ensures Dispatch(m, ev, env) ==
            if Travels(d, u)["userId"].Str? then m.(presence := m.presence[Whose(d, u) := Travels(d, u)]) else m
  {
    assert Obj(Travels(d, u)).Get("userId") == Some(Travels(d, u)["userId"]);
  }

  lemma LeaveStored(m: State, ev: Event, who: string, env: Env)
    requires ev.action == PRESENCE && ev.event == "LEAVE" && ev.payload.GetObj("changed") == Some(map["userId" := Str(who)])
    ensures Dispatch(m, ev, env) == m.(presence := m.presence - {who})
  {
    assert Obj(map["userId" := Str(who)]).Get("userId") == Some(Str(who));
  }

  /** The user an object says it is about: by its `userId`, and by its `id` only if it has no such member. */
  predicate Names(changed: Object, who: string) {
    if "userId" in changed then changed["userId"] == Str(who) else "id" in changed && changed["id"] == Str(who)
  }

  /** A presence event is taken for the user its object names: a leave removes the presence, any other event stores the
      object; an object that names nobody changes nothing. */
  lemma HeldUnder(m: State, ev: Event, changed: Object, env: Env)
    requires ev.action == PRESENCE && ev.payload.GetObj("changed") == Some(changed)
    ensures forall who | Names(changed, who) ::
              Dispatch(m, ev, env)
              == m.(presence := if ev.event == "LEAVE" then m.presence - {who} else m.presence[who := changed])
    ensures (forall who :: !Names(changed, who)) ==> Dispatch(m, ev, env) == m
  {
    var id := match Obj(changed).Get("userId") case Some(v) => v.AsStr() case None => Obj(changed).GetStr("id");
    if id.Some? { assert Names(changed, id.value); }
  }

  // ---------- one message, handled by another node ----------

  lemma ChangeHandled(s: State, m: State, kind: string, u: string, d: Object, rid: string, subtype: string, env: Env)
    requires Peers(s, m)
    requires (kind == "JOIN" && subtype == "presence:join") || (kind == "UPDATE" && subtype == "presence:update")
    ensures Step(m, Receive(Bytes(Change(s, kind, u, d, rid, subtype), "", "", 0)), env) ==
            if Travels(d, u)["userId"].Str? then m.(presence := m.presence[Whose(d, u) := Travels(d, u)]) else m
  {
    var p := Change(s, kind, u, d, rid, subtype);
    ChangeRead(s, kind, u, d, rid, subtype, env.freshId);
    BytesRead(p, "", "", 0, env.freshId);
    ChangeTaken(m, Bytes(p, "", "", 0), ReadAs(p, env.freshId), d, u, env);
  }

  lemma ChangeTaken(m: State, data: Value, ev: Event, d: Object, u: string, env: Env)
    requires Decode(data, env.freshId) == Some(ev) && Concerns(m, ev)
    requires ev.action == PRESENCE && ev.event == "UPDATE" && ev.payload.GetObj("changed") == Some(Travels(d, u))
    ensures Step(m, Receive(data), env) ==
            if Travels(d, u)["userId"].Str? then m.(presence := m.presence[Whose(d, u) := Travels(d, u)]) else m
  {
    HandlesRead(m, data, ev, env);
    ChangeStored(m, ev, d, u, env);
  }

  lemma LeaveHandled(s: State, m: State, u: string, d: Object, rid: string, env: Env)
    requires Peers(s, m)
    ensures Step(m, Receive(Bytes(Change(s, "LEAVE", u, d, rid, "presence:leave"), "", "", 0)), env)
         == m.(presence := m.presence - {Whose(d, u)})
  {
    var p := Change(s, "LEAVE", u, d, rid, "presence:leave");
    LeaveRead(s, u, d, rid, env.freshId);
    BytesRead(p, "", "", 0, env.freshId);
    LeaveTaken(m, Bytes(p, "", "", 0), ReadAs(p, env.freshId), Whose(d, u), env);
  }

  lemma LeaveTaken(m: State, data: Value, ev: Event, who: string, env: Env)
    requires Decode(data, env.freshId) == Some(ev) && Concerns(m, ev)
    requires ev.action == PRESENCE && ev.event == "LEAVE" && ev.payload.GetObj("changed") == Some(map["userId" := Str(who)])
    ensures Step(m, Receive(data), env) == m.(presence := m.presence - {who})
  {
    HandlesRead(m, data, ev, env);
    LeaveStored(m, ev, who, env);
  }

  function Left(s: State, u: string, rid: string): Publication {
    Publication(LeftEvent(s.name, rid, u).(nodeId := s.nodeId), "user:left")
  }

  lemma LeftRead(s: State, u: string, rid: string, freshId: string)
    ensures var ev := ReadAs(Left(s, u, rid), freshId);
            && ev.action == USER_LEFT && ev.nodeId == s.nodeId && ev.channelName == s.name
            && ev.payload.GetStr("userId") == Some(u)
  {
    assert Classify(Left(s, u, rid).ev, "user:left") == UserLeft;
  }

  /** After the leave of a user of another node nothing of the user's presence is left. */
  lemma LeftHandled(s: State, m: State, u: string, rid: string, env: Env)
    requires Peers(s, m) && u !in m.connections
    ensures var t := Step(m, Receive(Bytes(Left(s, u, rid), "", "", 0)), env);
            t.presence == m.presence - {u} && t.connections == m.connections
  {
    var p := Left(s, u, rid);
    LeftRead(s, u, rid, env.freshId);
    BytesRead(p, "", "", 0, env.freshId);
    HandlesRead(m, Bytes(p, "", "", 0), ReadAs(p, env.freshId), env);
  }

  // ---------- the four operations ----------

  lemma TrackSends(s: State, u: string, d: Object, env: Env)
    requires s.distributed
    ensures Sends(s, Track(u, Obj(d)), env)
         == if u in s.presence then [] else [Change(s, "JOIN", u, d, env.freshId, "presence:join")]
    ensures Sends(s, Update(u, Obj(d)), env)
         == if u in s.presence then [Change(s, "UPDATE", u, d, env.freshId, "presence:update")] else []
  {}

  lemma LeaveSends(s: State, u: string, env: Env)
    requires s.distributed
    ensures Sends(s, Untrack(u), env)
         == if u in s.presence then [Change(s, "LEAVE", u, s.presence[u], env.freshId, "presence:leave")] else []
    ensures Sends(s, Remove(u), env)
         == if u in s.connections then Sends(s, Untrack(u), env) + [Left(s, u, env.freshId)] else []
  {}

  /** From `m` to `t` the presence of `u` became `seen`, and nothing else that is known about users changed. */
  ghost predicate OnlySeen(m: State, t: State, u: string, seen: Option<Object>) {
    && Seen(t, u) == seen
    && (forall x | x != u :: Seen(t, x) == Seen(m, x))
    && t.connections == m.connections && t.assigns == m.assigns && t.nodeUsers == m.nodeUsers
  }

  lemma ChangeReaches(s: State, m: State, kind: string, u: string, d: Object, rid: string, subtype: string, env: Env)
    requires Peers(s, m) && Plain(d, u)
    requires (kind == "JOIN" && subtype == "presence:join") || (kind == "UPDATE" && subtype == "presence:update")
    ensures OnlySeen(m, Step(m, Receive(Bytes(Change(s, kind, u, d, rid, subtype), "", "", 0)), env), u, Some(Stamped(d, u)))
  {
    ChangeHandled(s, m, kind, u, d, rid, subtype, env);
    assert Travels(d, u) == Stamped(d, u);
  }

  lemma TrackedHere(s: State, op: Op, env: Env)
    requires (op.Track? || op.Update?) && op.data.Obj? && (op.Track? <==> op.id !in s.presence)
    ensures Step(s, op, env).presence == s.presence[op.id := op.data.fields]
  {}

  /** Tracking or updating a presence that does not name another user: every other node holds for that user the very
      object, with the id put in, and for everybody else what it held. */
  lemma TrackReaches(s: State, m: State, op: Op, here: Env, there: Env)
    requires Peers(s, m) && (op.Track? || op.Update?) && op.data.Obj? && Plain(op.data.fields, op.id)
    requires op.Track? <==> op.id !in s.presence
    ensures
      var sent := Sends(s, op, here);
      && |sent| == 1 && Seen(Step(s, op, here), op.id) == Some(op.data.fields)
      && OnlySeen(m, Step(m, Receive(Bytes(sent[0], "", "", 0)), there), op.id, Some(op.data.fields["userId" := Str(op.id)]))
  {
    var d := op.data.fields;
    TrackedHere(s, op, here);
    if op.Track? {
      TrackSends(s, op.id, d, here);
      ChangeReaches(s, m, "JOIN", op.id, d, here.freshId, "presence:join", there);
    } else {
      TrackSends(s, op.id, d, here);
      ChangeReaches(s, m, "UPDATE", op.id, d, here.freshId, "presence:update", there);
    }
  }

  /** A presence that names another user as its own is stored there under that user, and not under the one it was
      tracked for: `ann` is tracked, `bob` appears. */
  lemma ForeignPresence(s: State, m: State, here: Env, there: Env)
    requires Peers(s, m) && "ann" !in s.presence
    ensures
      var op := Track("ann", Obj(map["userId" := Str("bob")]));
      var sent := Sends(s, op, here);
      && |sent| == 1 && Seen(Step(s, op, here), "ann").Some? && Seen(Step(s, op, here), "bob") == Seen(s, "bob")
      && var t := Step(m, Receive(Bytes(sent[0], "", "", 0)), there);
         Seen(t, "ann") == Seen(m, "ann") && Seen(t, "bob") == Some(map["userId" := Str("bob")])
  {
    var d: Object := map["userId" := Str("bob")];
    TrackSends(s, "ann", d, here);
    ChangeHandled(s, m, "JOIN", "ann", d, here.freshId, "presence:join", there);
  }

  /** What a node holds after handling all of some publications in order. */
  function HandledAll(m: State, sent: seq<Publication>, env: Env): State
    decreases |sent|
  {
    if sent == [] then m else HandledAll(Step(m, Receive(Bytes(sent[0], "", "", 0)), env), sent[1..], env)
  }

  lemma GoneHere(s: State, op: Op, env: Env)
    requires (op.Untrack? && op.id in s.presence) || (op.Remove? && op.id in s.connections)
    ensures Step(s, op, env).presence == s.presence - {op.id}
  {}

  /** Untracking a user, or removing one, whose presence does not name another: no other node holds a presence of that
      user any more, and of everybody else what it held. */
  lemma UntrackReaches(s: State, m: State, op: Op, here: Env, there: Env)
    requires Peers(s, m) && (op.Untrack? || op.Remove?) && op.id !in m.connections
    requires if op.Untrack? then op.id in s.presence else op.id in s.connections
    requires op.id in s.presence ==> Plain(s.presence[op.id], op.id)
    ensures
      var t := HandledAll(m, Sends(s, op, here), there);
      && Seen(Step(s, op, here), op.id) == None && Seen(t, op.id) == None
      && (forall x | x != op.id :: Seen(t, x) == Seen(m, x))
      && t.connections == m.connections
  {
    GoneHere(s, op, here);
    if op.Untrack? {
      UntrackHandled(s, m, op.id, here, there);
    } else {
      RemovalHandled(s, m, op.id, here, there);
    }
  }

  lemma UntrackHandled(s: State, m: State, u: string, here: Env, there: Env)
    requires Peers(s, m) && u in s.presence && Plain(s.presence[u], u)
    ensures HandledAll(m, Sends(s, Untrack(u), here), there) == m.(presence := m.presence - {u})
  {
    LeaveSends(s, u, here);
    LeaveHandled(s, m, u, s.presence[u], here.freshId, there);
    assert Whose(s.presence[u], u) == u;
    var sent := Sends(s, Untrack(u), here);
    assert sent[1..] == [];
  }

  lemma RemovalHandled(s: State, m: State, u: string, here: Env, there: Env)
    requires Peers(s, m) && u in s.connections && u !in m.connections
    requires u in s.presence ==> Plain(s.presence[u], u)
    ensures var t := HandledAll(m, Sends(s, Remove(u), here), there);
            t.presence == m.presence - {u} && t.connections == m.connections
  {
    LeaveSends(s, u, here);
    var first := Sends(s, Untrack(u), here);
    var m1 := if u in s.presence then m.(presence := m.presence - {u}) else m;
    if u in s.presence { UntrackHandled(s, m, u, here, there); }
    assert HandledAll(m, first, there) == m1;
    LeftHandled(s, m1, u, here.freshId, there);
    var last := [Left(s, u, here.freshId)];
    assert last[1..] == [];
    HandledConcat(m, first, last, there);
  }

  lemma {:induction false} HandledConcat(m: State, a: seq<Publication>, b: seq<Publication>, env: Env)
    ensures HandledAll(m, a + b, env) == HandledAll(HandledAll(m, a, env), b, env)
    decreases |a|
  {
    if a == [] {
      assert a + b == b;
    } else {
      assert (a + b)[1..] == a[1..] + b;
      HandledConcat(Step(m, Receive(Bytes(a[0], "", "", 0)), env), a[1..], b, env);
    }
  }
}
