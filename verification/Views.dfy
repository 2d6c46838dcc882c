/** What messages mean for the part of a node's data that belongs to the users of one node, and that a node's
    messages tell exactly how its own users change. */
module Views {
  import opened Json
  import opened Wire
  import opened ChannelSpec
  import opened NodeSteps
  import opened Partition
  import WireLaws

  type View = map<string, Object>

  /** The assigns held at `s` for the users whose home is `node`. */
  function ViewOf(s: State, node: string, home: Homes): View {
    map u | u in s.assigns && home(u) == node :: s.assigns[u]
  }

  /** A node's assigns of its own users. */
  function Own(s: State, home: Homes): View {
    ViewOf(s, s.nodeId, home)
  }

  predicate Sub(v: View, w: View) {
    forall u <- v :: u in w && v[u] == w[u]
  }

  // ---------- the meaning of a message ----------

  function EffectOfUsers(v: View, users: seq<Value>): View
    decreases |users|
  {
    if users == [] then v
    else
      var id := users[0].GetStr("id");
      EffectOfUsers(if id.None? then v else v[id.value := users[0].GetObj("assigns").GetOr(map[])], users[1..])
  }

  /** What a message says about the users of the node it comes from. */
  function Effect(v: View, ev: Event): View {
    match ev.action
    case ASSIGNS => MergedAssigns(v, ev)
    case STATE_RESPONSE =>
      var users := ev.payload.Get("users");
      if users.Some? && users.value.Arr? then EffectOfUsers(v, users.value.items) else v
    case USER_JOINED => 
      var id := ev.payload.GetStr("userId");
      if id.None? then v else v[id.value := ev.payload.GetObj("assigns").GetOr(map[])]
    case USER_LEFT =>
      var id := ev.payload.GetStr("userId");
      if id.None? then v else v - {id.value}
    case USER_COMMAND =>
      var id := ev.payload.GetStr("userId");
      if id.None? || ev.event != "user:get_response" || ev.payload.GetObj("assigns").None? then v
      else v[id.value := ev.payload.GetObj("assigns").value]
    case _ => v
  }

  function Effects(v: View, sent: seq<Publication>): View
    decreases |sent|
  {
    if sent == [] then v else Effects(Effect(v, ReadAs(sent[0], "")), sent[1..])
  }

  lemma {:induction false} EffectsConcat(v: View, a: seq<Publication>, b: seq<Publication>)
    ensures Effects(v, a + b) == Effects(Effects(v, a), b)
    decreases |a|
  {
    if a == [] {
      assert a + b == b;
    } else {
      assert (a + b)[1..] == a[1..] + b;
      EffectsConcat(Effect(v, ReadAs(a[0], "")), a[1..], b);
    }
  }

  lemma EffectsOne(v: View, p: Publication)
    ensures Effects(v, [p]) == Effect(v, ReadAs(p, ""))
  {
    assert [p][1..] == [];
  }

  // ---------- a smaller view stays smaller ----------

  lemma {:induction false} EffectOfUsersMonotone(v: View, w: View, users: seq<Value>)
    requires Sub(v, w)
    ensures Sub(EffectOfUsers(v, users), EffectOfUsers(w, users))
    decreases |users|
  {
    if users != [] {
      var id := users[0].GetStr("id");
      if id.None? {
        EffectOfUsersMonotone(v, w, users[1..]);
      } else {
        var a := users[0].GetObj("assigns").GetOr(map[]);
        EffectOfUsersMonotone(v[id.value := a], w[id.value := a], users[1..]);
      }
    }
  }

  lemma EffectMonotone(v: View, w: View, ev: Event)
    requires Sub(v, w)
    ensures Sub(Effect(v, ev), Effect(w, ev))
  {
    match ev.action
    case ASSIGNS => MergedMonotone(v, w, ev);
    case STATE_RESPONSE =>
      var users := ev.payload.Get("users");
      if users.Some? && users.value.Arr? { EffectOfUsersMonotone(v, w, users.value.items); }
    case _ => OtherMonotone(v, w, ev);
  }

  lemma MergedMonotone(v: View, w: View, ev: Event)
    requires Sub(v, w)
    ensures Sub(MergedAssigns(v, ev), MergedAssigns(w, ev))
  {}

  lemma OtherMonotone(v: View, w: View, ev: Event)
    requires Sub(v, w) && ev.action != ASSIGNS && ev.action != STATE_RESPONSE
    ensures Sub(Effect(v, ev), Effect(w, ev))
  {}

  lemma {:induction false} EffectsMonotone(v: View, w: View, sent: seq<Publication>)
    requires Sub(v, w)
    ensures Sub(Effects(v, sent), Effects(w, sent))
    decreases |sent|
  {
    if sent != [] {
      EffectMonotone(v, w, ReadAs(sent[0], ""));
      EffectsMonotone(Effect(v, ReadAs(sent[0], "")), Effect(w, ReadAs(sent[0], "")), sent[1..]);
    }
  }

  // ---------- receiving ----------

  /** Assign updates come from the home of the user. */
  predicate FromHome(ev: Event, home: Homes) {
    ev.action == ASSIGNS ==> NamesUser(ev.payload, "userId", ev.nodeId, home)
  }

  lemma LearnedView(s: State, user: Value, id: string, from: string, now: int, node: string, home: Homes)
    requires (forall u <- s.connections :: home(u) == s.nodeId) && from != s.nodeId && home(id) == from
    ensures ViewOf(LearnUser(s, user, id, from, now), node, home)
         == if node == from then ViewOf(s, node, home)[id := user.GetObj("assigns").GetOr(map[])] else ViewOf(s, node, home)
  {
    var t := LearnUser(s, user, id, from, now);
    assert id !in s.connections;
    assert t.assigns == s.assigns[id := user.GetObj("assigns").GetOr(map[])];
  }

  lemma {:induction false} LearnView(s: State, users: seq<Value>, from: string, now: int, node: string, home: Homes)
    requires forall u <- s.connections :: home(u) == s.nodeId
    requires from != s.nodeId && forall user <- users :: NamesUser(user, "id", from, home)
    ensures ViewOf(LearnUsers(s, users, from, now), node, home)
         == if node == from then EffectOfUsers(ViewOf(s, node, home), users) else ViewOf(s, node, home)
    decreases |users|
  {
    if users != [] {
      assert NamesUser(users[0], "id", from, home);
      var id := users[0].GetStr("id");
      var s1 := if id.None? then s else LearnUser(s, users[0], id.value, from, now);
      if id.Some? { LearnedView(s, users[0], id.value, from, now, node, home); }
      LearnView(s1, users[1..], from, now, node, home);
    }
  }

  lemma JoinedView(s: State, ev: Event, now: int, node: string, home: Homes)
    requires forall u <- s.connections :: home(u) == s.nodeId
    requires ev.nodeId != s.nodeId && ev.action == USER_JOINED && Genuine(ev, home)
    ensures ViewOf(HandleUserJoined(s, ev, now), node, home)
         == if node == ev.nodeId then Effect(ViewOf(s, node, home), ev) else ViewOf(s, node, home)
  {
    var id := ev.payload.GetStr("userId");
    if id.Some? { LearnedView(s, ev.payload, id.value, ev.nodeId, now, node, home); }
  }

  lemma LeftView(s: State, ev: Event, node: string, home: Homes)
    requires forall u <- s.connections :: home(u) == s.nodeId
    requires ev.nodeId != s.nodeId && ev.action == USER_LEFT && Genuine(ev, home)
    ensures ViewOf(HandleUserLeft(s, ev), node, home)
         == if node == ev.nodeId then Effect(ViewOf(s, node, home), ev) else ViewOf(s, node, home)
  {}

  lemma AssignsView(s: State, ev: Event, node: string, home: Homes)
    requires ev.action == ASSIGNS && FromHome(ev, home)
    ensures ViewOf(HandleAssigns(s, ev), node, home)
         == if node == ev.nodeId then Effect(ViewOf(s, node, home), ev) else ViewOf(s, node, home)
  {}

  lemma CommandView(s: State, ev: Event, now: int, node: string, home: Homes)
    requires forall u <- s.connections :: home(u) == s.nodeId
    requires ev.nodeId != s.nodeId && node != s.nodeId && ev.action == USER_COMMAND && Genuine(ev, home)
    ensures ViewOf(HandleCommand(s, ev, now), node, home)
         == if node == ev.nodeId then Effect(ViewOf(s, node, home), ev) else ViewOf(s, node, home)
  {
    var who := ev.payload.GetStr("userId");
    if who.Some? && (ev.event == "user:evict" || ev.event == "user:remove") {
      RemovedView(s, who.value, node, home);
    } else if who.Some? && ev.event == "user:get_response" {
      FoundView(s, ev, who.value, now, node, home);
    }
  }

  lemma RemovedView(s: State, id: string, node: string, home: Homes)
    requires (forall u <- s.connections :: home(u) == s.nodeId) && node != s.nodeId
    ensures ViewOf(RemoveUser(s, id), node, home) == ViewOf(s, node, home)
  {}

  lemma FoundView(s: State, ev: Event, id: string, now: int, node: string, home: Homes)
    requires forall u <- s.connections :: home(u) == s.nodeId
    requires ev.nodeId != s.nodeId && ev.action == USER_COMMAND && ev.event == "user:get_response" && Genuine(ev, home)
    requires ev.payload.GetStr("userId") == Some(id)
    ensures ViewOf(HandleCommand(s, ev, now), node, home)
         == if node == ev.nodeId then Effect(ViewOf(s, node, home), ev) else ViewOf(s, node, home)
  {}

  lemma ResponseView(s: State, ev: Event, now: int, node: string, home: Homes)
    requires forall u <- s.connections :: home(u) == s.nodeId
    requires ev.nodeId != s.nodeId && ev.action == STATE_RESPONSE && Genuine(ev, home)
    ensures ViewOf(HandleStateResponse(s, ev, now), node, home)
         == if node == ev.nodeId then Effect(ViewOf(s, node, home), ev) else ViewOf(s, node, home)
  {
    var users := ev.payload.Get("users");
    if users.Some? && users.value.Arr? { LearnView(s, users.value.items, ev.nodeId, now, node, home); }
  }

  /** A handled message changes the view of the node it comes from as it says, and no other view. */
  lemma DispatchView(s: State, ev: Event, env: Env, node: string, home: Homes)
    requires forall u <- s.connections :: home(u) == s.nodeId
    requires ev.nodeId != s.nodeId && Genuine(ev, home) && FromHome(ev, home)
    requires ev.action == USER_COMMAND ==> node != s.nodeId
    ensures ViewOf(Dispatch(s, ev, env), node, home)
         == if node == ev.nodeId then Effect(ViewOf(s, node, home), ev) else ViewOf(s, node, home)
  {
    match ev.action
    case ASSIGNS => AssignsView(s, ev, node, home);
    case USER_COMMAND => CommandView(s, ev, env.now, node, home);
    case STATE_RESPONSE => ResponseView(s, ev, env.now, node, home);
    case USER_JOINED => JoinedView(s, ev, env.now, node, home);
    case USER_LEFT => LeftView(s, ev, node, home);
    case _ => assert Dispatch(s, ev, env).assigns == s.assigns;
  }

  // ---------- sending ----------

  /** The publications `sent` tell how a node's own assigns went from `own` to `own'`: a view equal to the old
      ones becomes equal to the new ones, and a view with only part of them does not gain a wrong entry. */
  ghost predicate Tells(own: View, sent: seq<Publication>, own': View) {
    && Effects(own, sent) == own'
    && forall v: View | Sub(v, own) :: Sub(Effects(v, sent), own')
  }

  /** Monotonicity makes the first half enough. */
  lemma TellsFromFull(own: View, sent: seq<Publication>, own': View)
    requires Effects(own, sent) == own'
    ensures Tells(own, sent, own')
  {
    forall v: View | Sub(v, own) ensures Sub(Effects(v, sent), own') { EffectsMonotone(v, own, sent); }
  }

  /** A publication about nothing that a view holds. */
  predicate Silent(p: Publication) {
    ReadAs(p, "").action in {PRESENCE, STATE_REQUEST, BROADCAST, HEARTBEAT}
    || (ReadAs(p, "").action == USER_COMMAND && ReadAs(p, "").event != "user:get_response")
  }

  lemma SilentEffect(v: View, p: Publication)
    requires Silent(p)
    ensures Effect(v, ReadAs(p, "")) == v
  {}

  lemma SilentTold(own: View, s: State, ev: Event, subtype: string)
    requires Silent(Publication(ev.(nodeId := s.nodeId), subtype))
    ensures Effects(own, Publish(s, ev, subtype)) == own
  {
    var p := Publication(ev.(nodeId := s.nodeId), subtype);
    SilentEffect(own, p);
    EffectsOne(own, p);
  }

  lemma JoinedTold(own: View, s: State, id: string, assigns: Object, rid: string)
    requires s.distributed
    ensures Effects(own, Publish(s, JoinedEvent(s.name, rid, id, assigns), "user:joined")) == own[id := assigns]
  {
    EffectsOne(own, Publication(JoinedEvent(s.name, rid, id, assigns).(nodeId := s.nodeId), "user:joined"));
  }

  lemma LeftTold(own: View, s: State, id: string, rid: string)
    requires s.distributed
    ensures Effects(own, Publish(s, LeftEvent(s.name, rid, id), "user:left")) == own - {id}
  {
    EffectsOne(own, Publication(LeftEvent(s.name, rid, id).(nodeId := s.nodeId), "user:left"));
  }

  /** The key and the value do not travel: the receiver merges all assigns of the user. */
  lemma AssignTold(own: View, s: State, id: string, key: string, value: Value, rid: string)
    requires s.distributed && id in own && id in s.assigns && own[id] == s.assigns[id]
    ensures Effects(own, UpdateAssignSends(s, id, key, value, rid)) == own[id := Updated(s, id, key, value)]
  {
    var updated := Updated(s, id, key, value);
    EffectsOne(own, Publication(AssignsEvent(s.name, rid, id, key, value, updated).(nodeId := s.nodeId), "assigns:update"));
    assert own[id] + updated == updated;
  }

  lemma AbsentAssignTold(own: View, s: State, id: string, key: string, value: Value, rid: string)
    requires id !in own
    ensures Effects(own, UpdateAssignSends(s, id, key, value, rid)) == own
  {
    var updated := Updated(s, id, key, value);
    EffectsOne(own, Publication(AssignsEvent(s.name, rid, id, key, value, updated).(nodeId := s.nodeId), "assigns:update"));
  }

  lemma FoundTold(own: View, s: State, id: string, presence: Object, rid: string)
    requires id in own && id in s.assigns && own[id] == s.assigns[id]
    ensures Effects(own, Publish(s, GetResponseEvent(s.name, rid, id, Lookup(s.assigns, id), presence), "user:get_response")) == own
  {
    EffectsOne(own, Publication(GetResponseEvent(s.name, rid, id, Lookup(s.assigns, id), presence).(nodeId := s.nodeId),
                                "user:get_response"));
  }

  lemma {:induction false} EntriesTold(v: View, own: View, s: State, keys: seq<string>)
    requires Sub(v, own) && forall k <- keys :: k in s.assigns && k in own && own[k] == s.assigns[k]
    ensures
      var w := EffectOfUsers(v, UserEntries(s.assigns, s.presence, keys));
      Sub(w, own) && (forall k <- v :: k in w) && forall k <- keys :: k in w
    decreases |keys|
  {
    if keys != [] {
      var users := UserEntries(s.assigns, s.presence, keys);
      assert users[1..] == UserEntries(s.assigns, s.presence, keys[1..]);
      assert users[0].GetStr("id") == Some(keys[0]) && users[0].GetObj("assigns") == Some(s.assigns[keys[0]]);
      EntriesTold(v[keys[0] := s.assigns[keys[0]]], own, s, keys[1..]);
    }
  }

  lemma AnswerEffect(v: View, s: State, keys: seq<string>, rid: string)
    requires s.distributed && keys != []
    ensures Effects(v, HandleStateRequestSends(s, keys, rid)) == EffectOfUsers(v, UserEntries(s.assigns, s.presence, keys))
  {
    var users := UserEntries(s.assigns, s.presence, keys);
    var p := Publication(StateResponseEvent(s.name, rid, users).(nodeId := s.nodeId), "state:response");
    assert HandleStateRequestSends(s, keys, rid) == [p];
    EffectsOne(v, p);
    assert ReadAs(p, "").payload.Get("users") == Some(Arr(users));
  }

  lemma OwnUsers(s: State, home: Homes)
    requires Partitioned(s, home)
    ensures Own(s, home).Keys == s.connections
  {
    forall u ensures u in Own(s, home).Keys <==> u in s.connections { assert UserRight(s, u, home); }
  }

  lemma SubOfSameKeys(w: View, own: View)
    requires Sub(w, own) && forall u <- own :: u in w
    ensures w == own
  {}

  lemma AnswerCompletes(v: View, own: View, s: State, keys: seq<string>, rid: string)
    requires s.distributed && Sub(v, own) && Enumerates(keys, own.Keys)
    requires forall k <- own :: k in s.assigns && own[k] == s.assigns[k]
    ensures Effects(v, HandleStateRequestSends(s, keys, rid)) == own
  {
    if keys == [] {
      SubOfSameKeys(v, own);
    } else {
      AnswerEffect(v, s, keys, rid);
      EntriesTold(v, own, s, keys);
      SubOfSameKeys(EffectOfUsers(v, UserEntries(s.assigns, s.presence, keys)), own);
    }
  }

  /** An answer to a state request completes every partial view. */
  lemma AnswerTold(v: View, s: State, keys: seq<string>, rid: string, home: Homes)
    requires s.distributed && Partitioned(s, home) && Enumerates(keys, s.connections) && Sub(v, Own(s, home))
    ensures Effects(v, HandleStateRequestSends(s, keys, rid)) == Own(s, home)
  {
    OwnUsers(s, home);
    AnswerCompletes(v, Own(s, home), s, keys, rid);
  }

  lemma UntrackTold(own: View, s: State, id: string, rid: string)
    ensures Effects(own, UntrackPresenceSends(s, id, rid)) == own
  {
    if id in s.presence {
      SilentTold(own, s, PresenceEvent(s.name, rid, "LEAVE", id, s.presence[id]), "presence:leave");
    }
  }

  lemma RemoveTold(s: State, id: string, rid: string, home: Homes)
    requires s.distributed && Partitioned(s, home)
    ensures Effects(Own(s, home), RemoveUserSends(s, id, rid)) == Own(RemoveUser(s, id), home)
  {
    if id in s.connections {
      var own := Own(s, home);
      UntrackTold(own, s, id, rid);
      LeftTold(own, s, id, rid);
      EffectsConcat(own, UntrackPresenceSends(s, id, rid), Publish(s, LeftEvent(s.name, rid, id), "user:left"));
    }
  }

  lemma CommandTold(s: State, ev: Event, env: Env, home: Homes)
    requires s.distributed && Partitioned(s, home) && ev.action == USER_COMMAND && Genuine(ev, home) && ev.nodeId != s.nodeId
    ensures Effects(Own(s, home), HandleCommandSends(s, ev, env.freshId)) == Own(HandleCommand(s, ev, env.now), home)
  {
    var who := ev.payload.GetStr("userId");
    if who.Some? {
      var id := who.value;
      assert UserRight(s, id, home);
      if ev.event == "user:evict" || ev.event == "user:remove" {
        RemoveTold(s, id, env.freshId, home);
      } else if ev.event == "user:get_request" {
        if id in s.connections {
          FoundTold(Own(s, home), s, id, Lookup(s.presence, id), ev.payload.GetStr("requestId").GetOr(ev.requestId));
        }
      } else if ev.event == "user:get_response" {
        assert Own(HandleCommand(s, ev, env.now), home) == Own(s, home);
      }
    }
  }

  /** A message that is a state request of another node on the same channel. */
  predicate IsStateRequest(s: State, op: Op, env: Env) {
    op.Receive? && Decode(op.data, env.freshId).Some?
    && Concerns(s, Decode(op.data, env.freshId).value) && Decode(op.data, env.freshId).value.action == STATE_REQUEST
  }

  /** Users are added and have assigns set at their home; messages are genuine and set assigns from the home. */
  predicate AtHome(s: State, op: Op, env: Env, home: Homes) {
    && (op.Add? || op.SetAssign? ==> home(op.id) == s.nodeId)
    && (op.Receive? && Decode(op.data, env.freshId).Some? ==>
          Genuine(Decode(op.data, env.freshId).value, home) && FromHome(Decode(op.data, env.freshId).value, home))
  }

  lemma DispatchTold(s: State, ev: Event, env: Env, home: Homes)
    requires s.distributed && Partitioned(s, home) && Enumerates(env.keys, s.connections)
    requires Genuine(ev, home) && FromHome(ev, home) && ev.nodeId != s.nodeId
    ensures Effects(Own(s, home), DispatchSends(s, ev, env)) == Own(Dispatch(s, ev, env), home)
  {
    match ev.action
    case USER_COMMAND => CommandTold(s, ev, env, home);
    case STATE_REQUEST => AnswerTold(Own(s, home), s, env.keys, env.freshId, home);
    case _ => OwnUntouched(s, ev, env, home);
  }

  lemma OwnUntouched(s: State, ev: Event, env: Env, home: Homes)
    requires Partitioned(s, home) && Genuine(ev, home) && FromHome(ev, home) && ev.nodeId != s.nodeId
    requires ev.action != USER_COMMAND && ev.action != STATE_REQUEST
    ensures DispatchSends(s, ev, env) == [] && Own(Dispatch(s, ev, env), home) == Own(s, home)
  {
    forall u | u in s.connections ensures home(u) == s.nodeId { assert UserRight(s, u, home); }
    DispatchIdentity(s, ev, env);
    DispatchView(s, ev, env, s.nodeId, home);
  }

  lemma MessageTold(s: State, data: Value, env: Env, home: Homes)
    requires s.distributed && Partitioned(s, home) && Enumerates(env.keys, s.connections) && AtHome(s, Receive(data), env, home)
    ensures Effects(Own(s, home), HandleMessageSends(s, data, env)) == Own(HandleMessage(s, data, env), home)
  {
    var decoded := Decode(data, env.freshId);
    if decoded.Some? && Concerns(s, decoded.value) { DispatchTold(s, decoded.value, env, home); }
  }

  lemma AddTold(s: State, id: string, assigns: Object, rid: string, home: Homes)
    requires s.distributed && Partitioned(s, home) && home(id) == s.nodeId
    ensures Effects(Own(s, home), AddUserSends(s, id, assigns, rid)) == Own(AddUser(s, id, assigns).0, home)
  {
    if s.active && id !in s.connections { JoinedTold(Own(s, home), s, id, assigns, rid); }
  }

  lemma SetAssignTold(s: State, id: string, key: string, value: Value, rid: string, home: Homes)
    requires s.distributed && Partitioned(s, home) && home(id) == s.nodeId
    ensures Effects(Own(s, home), UpdateAssignSends(s, id, key, value, rid)) == Own(UpdateAssign(s, id, key, value).0, home)
  {
    assert UserRight(s, id, home);
    if id in s.connections {
      AssignTold(Own(s, home), s, id, key, value, rid);
    } else {
      AbsentAssignTold(Own(s, home), s, id, key, value, rid);
    }
  }

  lemma SweepOwn(s: State, now: int, timeout: int, home: Homes)
    requires Partitioned(s, home)
    ensures Own(CleanupStaleNodes(s, now, timeout), home) == Own(s, home)
  {
    var stale := StaleNodes(s.lastSeen, now, timeout);
    assert NodeRight(s, s.nodeId);
    forall u | home(u) == s.nodeId ensures u !in UsersOf(s.nodeUsers, stale) { UserOfStale(s, stale, u, home); }
  }

  lemma TrackTold(own: View, s: State, id: string, data: Value, rid: string)
    ensures Effects(own, TrackPresenceSends(s, id, data, rid)) == own
    ensures Effects(own, UpdatePresenceSends(s, id, data, rid)) == own
  {
    if data.Obj? {
      SilentTold(own, s, PresenceEvent(s.name, rid, "JOIN", id, data.fields), "presence:join");
      SilentTold(own, s, PresenceEvent(s.name, rid, "UPDATE", id, data.fields), "presence:update");
    }
  }

  lemma PresenceTold(own: View, s: State, op: Op, env: Env)
    requires op.Track? || op.Update? || op.Untrack? || op.AskForUser? || op.Say?
    ensures Effects(own, Sends(s, op, env)) == own
  {
    var rid := env.freshId;
    match op
    case Track(id, data) => TrackTold(own, s, id, data, rid);
    case Update(id, data) => TrackTold(own, s, id, data, rid);
    case Untrack(id) => UntrackTold(own, s, id, rid);
    case AskForUser(id) => SilentTold(own, s, GetRequestEvent(s.name, rid, id, s.nodeId), "user:get_request");
    case Say(cast, event, payload) => SilentTold(own, s, CastEvent(s, cast, event, payload, rid), "message");
  }

  lemma UserTold(s: State, op: Op, env: Env, home: Homes)
    requires s.distributed && Partitioned(s, home) && Enumerates(env.keys, s.connections) && AtHome(s, op, env, home)
    requires op.Add? || op.Remove? || op.SetAssign? || op.Evict?
    ensures Effects(Own(s, home), Sends(s, op, env)) == Own(Step(s, op, env), home)
  {
    var rid := env.freshId;
    match op
    case Add(id, assigns) => AddTold(s, id, assigns, rid, home);
    case Remove(id) => RemoveTold(s, id, rid, home);
    case SetAssign(id, key, value) => SetAssignTold(s, id, key, value, rid, home);
    case Evict(id, reason) =>
      if id in s.connections {
        RemoveTold(s, id, rid, home);
      } else {
        SilentTold(Own(s, home), s, CommandEvent(s.name, rid, "user:evict", id, reason), "user:evict");
      }
  }

  /** Every step of a node, except closing it with users on, is told exactly by what the node publishes. */
  lemma StepTold(s: State, op: Op, env: Env, home: Homes)
    requires s.distributed && Partitioned(s, home) && Enumerates(env.keys, s.connections) && AtHome(s, op, env, home)
    requires op.Shut? ==> s.connections == {}
    ensures Tells(Own(s, home), Sends(s, op, env), Own(Step(s, op, env), home))
  {
    var rid := env.freshId;
    var own := Own(s, home);
    match op {
      case Add(_, _) => UserTold(s, op, env, home);
      case Remove(_) => UserTold(s, op, env, home);
      case SetAssign(_, _, _) => UserTold(s, op, env, home);
      case Evict(_, _) => UserTold(s, op, env, home);
      case Receive(data) => MessageTold(s, data, env, home);
      case Sweep(timeout) => SweepOwn(s, env.now, timeout, home);
      case Shut => OwnUsers(s, home);
      case Heartbeat(data) =>
      case _ => PresenceTold(own, s, op, env);
    }
    TellsFromFull(own, Sends(s, op, env), Own(Step(s, op, env), home));
  }
}
