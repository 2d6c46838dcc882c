/** Presence over whole runs: a node that handles all that the home of a user publishes mirrors the user's presence. */
module PresenceRuns {
  import opened Json
  import opened Wire
  import opened ChannelSpec
  import opened NodeSteps
  import opened Commands
  import opened Presence
  import Views

  /** The other node holds what the home holds, as it was stored there or as it travelled. */
  predicate Mirrors(s: State, m: State, u: string) {
    match Seen(s, u)
    case None => Seen(m, u) == None
    case Some(d) => Seen(m, u) == Some(d) || Seen(m, u) == Some(Stamped(d, u))
  }

  /** No presence held or given names another user as its own. */
  predicate PlainHome(s: State) {
    forall x <- s.presence :: Plain(s.presence[x], x)
  }

  predicate PlainOp(op: Op) {
    (op.Track? || op.Update?) && op.data.Obj? ==> Plain(op.data.fields, op.id)
  }

  /** An operation of the application at the home. */
  predicate AtHomeOnly(op: Op) {
    !op.Receive? && !op.Heartbeat? && !op.Shut? && !op.Sweep?
  }

  predicate Follower(s: State, m: State, u: string) {
    Peers(s, m) && u !in m.connections
  }

  // ---------- messages that say nothing about the presence of a user ----------

  lemma StillFollows(s: State, m: State, u: string, data: Value, env: Env)
    requires Follower(s, m, u)
    ensures Follower(s, Step(m, Receive(data), env), u)
  {
    StepIdentity(m, Receive(data), env);
    ConnectionsShrink(m, data, env);
  }

  lemma ConnectionsShrink(m: State, data: Value, env: Env)
    ensures Step(m, Receive(data), env).connections <= m.connections
  {
    var ev := Decode(data, env.freshId);
    if ev.Some? && Concerns(m, ev.value) {
      HandlesRead(m, data, ev.value, env);
      DispatchShrinks(m, ev.value, env);
    }
  }

  lemma CommandShrinks(m: State, ev: Event, now: int)
    ensures HandleCommand(m, ev, now).connections <= m.connections
  {}

  lemma ResponseShrinks(m: State, ev: Event, now: int)
    ensures HandleStateResponse(m, ev, now).connections == m.connections
  {
    var users := ev.payload.Get("users");
    if users.Some? && users.value.Arr? { LearnIdentity(m, users.value.items, ev.nodeId, now); }
  }

  lemma MembersShrink(m: State, ev: Event, now: int)
    ensures HandleUserJoined(m, ev, now).connections == m.connections && HandleUserLeft(m, ev).connections == m.connections
  {}

  lemma OthersShrink(m: State, ev: Event, env: Env)
    requires ev.action != USER_COMMAND && ev.action != STATE_RESPONSE && ev.action != USER_JOINED && ev.action != USER_LEFT
    ensures Dispatch(m, ev, env).connections == m.connections
  {}

  lemma DispatchShrinks(m: State, ev: Event, env: Env)
    ensures Dispatch(m, ev, env).connections <= m.connections
  {
    match ev.action
    case USER_COMMAND => CommandShrinks(m, ev, env.now);
    case STATE_RESPONSE => ResponseShrinks(m, ev, env.now);
    case USER_JOINED => MembersShrink(m, ev, env.now);
    case USER_LEFT => MembersShrink(m, ev, env.now);
    case _ => OthersShrink(m, ev, env);
  }

  /** Joins, assigns, broadcasts, questions and commands about others. */
  predicate Mute(ev: Event) {
    || (ev.action == USER_JOINED && ev.payload.GetObj("presence") == Some(map[]))
    || ev.action == ASSIGNS || ev.action == BROADCAST
    || (ev.action == USER_COMMAND && ev.event != "user:get_response")
  }

  lemma MuteHandled(m: State, ev: Event, env: Env, u: string)
    requires Mute(ev) && u !in m.connections
    ensures Seen(Dispatch(m, ev, env), u) == Seen(m, u)
  {}

  lemma MuteTaken(m: State, data: Value, ev: Event, env: Env, u: string)
    requires Mute(ev) && u !in m.connections && Decode(data, env.freshId) == Some(ev)
    ensures Seen(Step(m, Receive(data), env), u) == Seen(m, u)
  {
    if Concerns(m, ev) {
      HandlesRead(m, data, ev, env);
      MuteHandled(m, ev, env, u);
    }
  }

  predicate AllMute(sent: seq<Publication>, freshId: string) {
    forall p <- sent :: Mute(ReadAs(p, freshId))
  }

  lemma {:induction false} AllMuteHandled(s: State, m: State, sent: seq<Publication>, env: Env, u: string)
    requires Follower(s, m, u) && AllMute(sent, env.freshId)
    ensures Seen(HandledAll(m, sent, env), u) == Seen(m, u)
    decreases |sent|
  {
    if sent != [] {
      var data := Bytes(sent[0], "", "", 0);
      BytesRead(sent[0], "", "", 0, env.freshId);
      assert Mute(ReadAs(sent[0], env.freshId));
      MuteTaken(m, data, ReadAs(sent[0], env.freshId), env, u);
      StillFollows(s, m, u, data, env);
      AllMuteHandled(s, Step(m, Receive(data), env), sent[1..], env, u);
    }
  }

  lemma {:induction false} StillFollowsAll(s: State, m: State, sent: seq<Publication>, env: Env, u: string)
    requires Follower(s, m, u)
    ensures Follower(s, HandledAll(m, sent, env), u)
    decreases |sent|
  {
    if sent != [] {
      StillFollows(s, m, u, Bytes(sent[0], "", "", 0), env);
      StillFollowsAll(s, Step(m, Receive(Bytes(sent[0], "", "", 0)), env), sent[1..], env, u);
    }
  }

  /** The operations that have nothing to do with presence publish nothing that has. */
  predicate NotPresence(s: State, op: Op) {
    op.Add? || op.SetAssign? || op.AskForUser? || op.Say? || (op.Evict? && op.id !in s.connections)
  }

  lemma MuteSends(s: State, op: Op, env: Env, freshId: string)
    requires NotPresence(s, op)
    ensures AllMute(Sends(s, op, env), freshId)
  {}

  // ---------- one operation ----------

  /** The user whose presence an operation at the home changes, if it changes any. */
  predicate Acts(s: State, op: Op) {
    || (op.Track? && op.data.Obj? && op.id !in s.presence)
    || (op.Update? && op.data.Obj? && op.id in s.presence)
    || (op.Untrack? && op.id in s.presence)
    || ((op.Remove? || op.Evict?) && op.id in s.connections)
  }

  lemma IdleOp(s: State, op: Op, env: Env)
    requires AtHomeOnly(op) && !Acts(s, op) && !NotPresence(s, op)
    ensures Sends(s, op, env) == [] && Step(s, op, env).presence == s.presence
  {}

  lemma QuietAtHome(s: State, op: Op, env: Env)
    requires NotPresence(s, op)
    ensures Step(s, op, env).presence == s.presence
  {}

  lemma EvictIsRemove(s: State, id: string, reason: string, env: Env)
    requires id in s.connections
    ensures Step(s, Evict(id, reason), env) == Step(s, Remove(id), env)
    ensures Sends(s, Evict(id, reason), env) == Sends(s, Remove(id), env)
  {}

  lemma OneMirrored(s: State, s1: State, m: State, m1: State, id: string, d: Object, u: string)
    requires Mirrors(s, m, u) && s1.presence == s.presence[id := d] && OnlySeen(m, m1, id, Some(Stamped(d, id)))
    ensures Mirrors(s1, m1, u)
  {}

  lemma TrackMirrors(s: State, m: State, op: Op, here: Env, there: Env, u: string)
    requires Follower(s, m, u) && Mirrors(s, m, u) && (op.Track? || op.Update?) && Acts(s, op) && PlainOp(op)
    ensures Mirrors(Step(s, op, here), HandledAll(m, Sends(s, op, here), there), u)
  {
    TrackReaches(s, m, op, here, there);
    TrackedHere(s, op, here);
    var sent := Sends(s, op, here);
    assert sent[1..] == [];
    OneMirrored(s, Step(s, op, here), m, Step(m, Receive(Bytes(sent[0], "", "", 0)), there), op.id, op.data.fields, u);
  }

  lemma UntrackMirrors(s: State, m: State, op: Op, here: Env, there: Env, u: string)
    requires Follower(s, m, u) && Mirrors(s, m, u) && (op.Untrack? || op.Remove?) && Acts(s, op) && PlainHome(s)
    requires op.id !in m.connections
    ensures Mirrors(Step(s, op, here), HandledAll(m, Sends(s, op, here), there), u)
  {
    UntrackReaches(s, m, op, here, there);
    GoneHere(s, op, here);
  }

  /** Whatever the application does at the home, the mirror of every user that is not connected at the other node stays
      a mirror once what was published is handled. (The user an operation is about is not connected there either.) */
  lemma OperationMirrored(s: State, m: State, op: Op, here: Env, there: Env, u: string)
    requires Follower(s, m, u) && Mirrors(s, m, u) && AtHomeOnly(op) && PlainHome(s) && PlainOp(op)
    requires Acts(s, op) ==> op.id !in m.connections
    ensures Mirrors(Step(s, op, here), HandledAll(m, Sends(s, op, here), there), u)
  {
    if Acts(s, op) {
      if op.Track? || op.Update? {
        TrackMirrors(s, m, op, here, there, u);
      } else if op.Evict? {
        EvictIsRemove(s, op.id, op.reason, here);
        UntrackMirrors(s, m, Remove(op.id), here, there, u);
      } else {
        UntrackMirrors(s, m, op, here, there, u);
      }
    } else if NotPresence(s, op) {
      MuteSends(s, op, here, there.freshId);
      QuietAtHome(s, op, here);
      AllMuteHandled(s, m, Sends(s, op, here), there, u);
    } else {
      IdleOp(s, op, here);
    }
  }

  // ---------- answers to state requests ----------

  function Answered(s: State, keys: seq<string>, rid: string): Publication {
    Publication(StateResponseEvent(s.name, rid, UserEntries(s.assigns, s.presence, keys)).(nodeId := s.nodeId), "state:response")
  }

  lemma AnsweredRead(s: State, keys: seq<string>, rid: string, freshId: string)
    ensures var ev := ReadAs(Answered(s, keys, rid), freshId);
            && ev.action == STATE_RESPONSE && ev.nodeId == s.nodeId && ev.channelName == s.name
            && ev.payload.Get("users") == Some(Arr(UserEntries(s.assigns, s.presence, keys)))
  {
    assert Classify(Answered(s, keys, rid).ev, "state:response") == StateResponse;
  }

  /** What a node holds of a user after learning of some users of another: the presence stored there, if it says
      something. */
  function AfterAnswer(v: Option<Object>, s: State, keys: seq<string>, u: string): Option<Object> {
    if u in keys && Lookup(s.presence, u) != map[] then Some(Lookup(s.presence, u)) else v
  }

  lemma EntryRead(s: State, id: string)
    ensures var e := UserEntry(s.assigns, s.presence, id);
            e.GetStr("id") == Some(id) && e.GetObj("presence") == Some(Lookup(s.presence, id))
  {}

  lemma EntryLearned(s: State, m: State, id: string, node: string, now: int, u: string)
    requires u !in m.connections
    ensures var t := LearnUser(m, UserEntry(s.assigns, s.presence, id), id, node, now);
            Seen(t, u) == AfterAnswer(Seen(m, u), s, [id], u) && t.connections == m.connections
  {
    EntryRead(s, id);
  }

  lemma {:induction false} EntriesLearned(s: State, m: State, keys: seq<string>, node: string, now: int, u: string)
    requires u !in m.connections
    ensures Seen(LearnUsers(m, UserEntries(s.assigns, s.presence, keys), node, now), u) == AfterAnswer(Seen(m, u), s, keys, u)
    decreases |keys|
  {
    var users := UserEntries(s.assigns, s.presence, keys);
    if keys != [] {
      EntryRead(s, keys[0]);
      EntryLearned(s, m, keys[0], node, now, u);
      assert users[1..] == UserEntries(s.assigns, s.presence, keys[1..]);
      EntriesLearned(s, LearnUser(m, users[0], keys[0], node, now), keys[1..], node, now, u);
    }
  }

  lemma AnswerTaken(s: State, m: State, data: Value, ev: Event, keys: seq<string>, env: Env, u: string)
    requires u !in m.connections && Decode(data, env.freshId) == Some(ev) && Concerns(m, ev) && ev.action == STATE_RESPONSE
    requires ev.payload.Get("users") == Some(Arr(UserEntries(s.assigns, s.presence, keys)))
    ensures Seen(Step(m, Receive(data), env), u) == AfterAnswer(Seen(m, u), s, keys, u)
  {
    HandlesRead(m, data, ev, env);
    EntriesLearned(s, m, keys, ev.nodeId, env.now, u);
  }

  /** Handling the answer of the home to a state request. */
  lemma AnswerHandled(s: State, m: State, here: Env, there: Env, u: string)
    requires Follower(s, m, u)
    ensures Seen(HandledAll(m, HandleStateRequestSends(s, here.keys, here.freshId), there), u)
         == AfterAnswer(Seen(m, u), s, here.keys, u)
  {
    if here.keys != [] {
      var p := Answered(s, here.keys, here.freshId);
      AnsweredRead(s, here.keys, here.freshId, there.freshId);
      BytesRead(p, "", "", 0, there.freshId);
      AnswerTaken(s, m, Bytes(p, "", "", 0), ReadAs(p, there.freshId), here.keys, there, u);
      var sent := HandleStateRequestSends(s, here.keys, here.freshId);
      assert sent == [p] && sent[1..] == [];
    }
  }

  lemma RequestMirrored(s: State, m: State, op: Op, here: Env, there: Env, u: string)
    requires Follower(s, m, u) && Mirrors(s, m, u) && Views.IsStateRequest(s, op, here)
    ensures Mirrors(Step(s, op, here), HandledAll(m, Sends(s, op, here), there), u)
  {
    RequestSends(s, op, here);
    AnswerHandled(s, m, here, there, u);
  }

  lemma RequestSends(s: State, op: Op, env: Env)
    requires Views.IsStateRequest(s, op, env)
    ensures Step(s, op, env) == s && Sends(s, op, env) == HandleStateRequestSends(s, env.keys, env.freshId)
  {}

  /** A node that knows nothing yet mirrors a user of the home after the answer if and only if the user's presence, if
      there is one, says something: an empty presence is not taken over. */
  lemma NewcomerMirrors(s: State, m: State, here: Env, there: Env, u: string)
    requires Follower(s, m, u) && Seen(m, u) == None && u in s.connections && Enumerates(here.keys, s.connections)
    ensures Mirrors(s, HandledAll(m, HandleStateRequestSends(s, here.keys, here.freshId), there), u)
       <==> Seen(s, u) != Some(map[])
  {
    AnswerHandled(s, m, here, there, u);
  }

  // ---------- whole runs ----------

  type Deeds = seq<(Op, Env)>

  function HomeAfter(s: State, ops: Deeds): State
    decreases |ops|
  {
    if ops == [] then s else HomeAfter(Step(s, ops[0].0, ops[0].1), ops[1..])
  }

  /** The other node, handling all that the home publishes, in order. */
  function FollowerAfter(s: State, m: State, ops: Deeds, there: Env): State
    decreases |ops|
  {
    if ops == [] then m
    else FollowerAfter(Step(s, ops[0].0, ops[0].1), HandledAll(m, Sends(s, ops[0].0, ops[0].1), there), ops[1..], there)
  }

  /** Operations of the application about users that are not connected at the other node, and state requests. */
  predicate OfHome(op: Op, elsewhere: set<string>) {
    && PlainOp(op)
    && (op.Receive? || (AtHomeOnly(op)
                        && (op.Track? || op.Update? || op.Untrack? || op.Remove? || op.Evict? ==> op.id !in elsewhere)))
  }

  predicate AllOfHome(s: State, ops: Deeds, elsewhere: set<string>)
    decreases |ops|
  {
    ops == [] ||
    (OfHome(ops[0].0, elsewhere) && (ops[0].0.Receive? ==> Views.IsStateRequest(s, ops[0].0, ops[0].1))
     && AllOfHome(Step(s, ops[0].0, ops[0].1), ops[1..], elsewhere))
  }

  lemma StaysPlain(s: State, op: Op, env: Env)
    requires PlainHome(s) && PlainOp(op) && AtHomeOnly(op)
    ensures PlainHome(Step(s, op, env))
  {}

  lemma StepMirrored(s: State, m: State, op: Op, here: Env, there: Env, u: string, elsewhere: set<string>)
    requires Follower(s, m, u) && Mirrors(s, m, u) && PlainHome(s) && OfHome(op, elsewhere) && m.connections <= elsewhere
    requires op.Receive? ==> Views.IsStateRequest(s, op, here)
    ensures var s1, m1 := Step(s, op, here), HandledAll(m, Sends(s, op, here), there);
            Follower(s1, m1, u) && Mirrors(s1, m1, u) && PlainHome(s1) && m1.connections <= elsewhere
  {
    if op.Receive? {
      RequestMirrored(s, m, op, here, there, u);
      RequestSends(s, op, here);
    } else {
      OperationMirrored(s, m, op, here, there, u);
      StaysPlain(s, op, here);
      StepIdentity(s, op, here);
    }
    StillFollowsAll(s, m, Sends(s, op, here), there, u);
    ShrinksAll(m, Sends(s, op, here), there);
  }

  lemma {:induction false} ShrinksAll(m: State, sent: seq<Publication>, env: Env)
    ensures HandledAll(m, sent, env).connections <= m.connections
    decreases |sent|
  {
    if sent != [] {
      ConnectionsShrink(m, Bytes(sent[0], "", "", 0), env);
      ShrinksAll(Step(m, Receive(Bytes(sent[0], "", "", 0)), env), sent[1..], env);
    }
  }

  /** Over any run of the home, in which presences do not name other users: a node that handles in order all that the
      home publishes, and mirrored a user at the start, mirrors the user at the end. */
  lemma {:induction false} RunMirrored(s: State, m: State, ops: Deeds, there: Env, u: string, elsewhere: set<string>)
    requires Follower(s, m, u) && Mirrors(s, m, u) && PlainHome(s) && m.connections <= elsewhere
    requires AllOfHome(s, ops, elsewhere)
    ensures Mirrors(HomeAfter(s, ops), FollowerAfter(s, m, ops, there), u)
    decreases |ops|
  {
    if ops != [] {
      StepMirrored(s, m, ops[0].0, ops[0].1, there, u, elsewhere);
      RunMirrored(Step(s, ops[0].0, ops[0].1), HandledAll(m, Sends(s, ops[0].0, ops[0].1), there), ops[1..], there, u,
                  elsewhere);
    }
  }
}
