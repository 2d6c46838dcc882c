/** Commands about a user of another node: evicting the user there, and asking that node about the user. */
module Commands {
  import opened Json
  import opened Wire
  import opened ChannelSpec
  import opened NodeSteps

  /** Two nodes of one channel. */
  predicate Peers(s: State, m: State) {
    s.name == m.name && s.distributed && m.distributed && s.nodeId != m.nodeId && s.nodeId != "" && m.nodeId != ""
  }

  // ---------- eviction ----------

  /** The event says that the user has left the node. */
  predicate SaysLeft(ev: Event, node: string, id: string) {
    ev.action == USER_LEFT && ev.nodeId == node && ev.payload.GetStr("userId") == Some(id)
  }

  /** From `m` to `t` exactly the user is gone. */
  predicate OnlyWithout(m: State, t: State, id: string) {
    && t.connections == m.connections - {id} && t.assigns == m.assigns - {id} && t.presence == m.presence - {id}
    && t.nodeUsers == m.nodeUsers && t.active == m.active && t.dispatchQueue == m.dispatchQueue
  }

  function Command(s: State, id: string, reason: string, rid: string): Publication {
    Publication(CommandEvent(s.name, rid, "user:evict", id, reason).(nodeId := s.nodeId), "user:evict")
  }

  lemma EvictionRead(s: State, id: string, reason: string, rid: string, freshId: string)
    requires s.distributed
    ensures var ev := ReadAs(Command(s, id, reason, rid), freshId);
            && Publish(s, CommandEvent(s.name, rid, "user:evict", id, reason), "user:evict") == [Command(s, id, reason, rid)]
            && ev.action == USER_COMMAND && ev.event == "user:evict" && ev.payload.GetStr("userId") == Some(id)
            && ev.payload.GetStr("reason") == Some(reason) && ev.nodeId == s.nodeId && ev.channelName == s.name
  {}

  lemma LeavePublished(m: State, id: string, rid: string)
    requires m.distributed && id in m.connections
    ensures RemoveUserSends(m, id, rid) != []
    ensures var sent := RemoveUserSends(m, id, rid); SaysLeft(ReadAs(sent[|sent| - 1], ""), m.nodeId, id)
  {}

  /** What a node does when told to evict one of its users. */
  predicate Obeys(m: State, t: State, said: seq<Publication>, id: string) {
    OnlyWithout(m, t, id) && said != [] && SaysLeft(ReadAs(said[|said| - 1], ""), m.nodeId, id)
  }

  predicate Expels(ev: Event) {
    ev.action == USER_COMMAND && (ev.event == "user:evict" || ev.event == "user:remove")
  }

  /** A command to evict or to remove a user is obeyed by the node of the user. */
  lemma CommandObeyed(m: State, data: Value, ev: Event, id: string, env: Env)
    requires m.distributed && id in m.connections && Decode(data, env.freshId) == Some(ev) && Concerns(m, ev)
    requires Expels(ev) && ev.payload.GetStr("userId") == Some(id)
    ensures Obeys(m, Step(m, Receive(data), env), Sends(m, Receive(data), env), id)
  {
    HandlesRead(m, data, ev, env);
    Evicted(m, ev, id, env);
  }

  /** Nobody but the node of the user obeys a command or answers a request, and that node takes no answer about the user. */
  lemma CommandPassedBy(m: State, data: Value, ev: Event, id: string, env: Env)
    requires Decode(data, env.freshId) == Some(ev) && Concerns(m, ev) && ev.payload.GetStr("userId") == Some(id)
    requires if id in m.connections then ev.action == USER_COMMAND && ev.event == "user:get_response"
             else Expels(ev) || (ev.action == USER_COMMAND && ev.event == "user:get_request")
    ensures Step(m, Receive(data), env) == m && Sends(m, Receive(data), env) == []
  {
    HandlesRead(m, data, ev, env);
  }

  /** Evicting a user that is connected elsewhere changes nothing here and publishes one command; the node of the user,
      when the command arrives, has the user no more, and nobody else less, and says so last. */
  lemma EvictionReaches(s: State, m: State, id: string, reason: string, here: Env, there: Env, endpoint: string,
                        messageId: string, timestamp: int)
    requires Peers(s, m) && id !in s.connections && id in m.connections
    ensures
      var sent := Sends(s, Evict(id, reason), here);
      && |sent| == 1 && Step(s, Evict(id, reason), here) == s
      && var data := Bytes(sent[0], endpoint, messageId, timestamp);
         Obeys(m, Step(m, Receive(data), there), Sends(m, Receive(data), there), id)
  {
    EvictionRead(s, id, reason, here.freshId, there.freshId);
    var p := Command(s, id, reason, here.freshId);
    assert Sends(s, Evict(id, reason), here) == [p];
    BytesRead(p, endpoint, messageId, timestamp, there.freshId);
    CommandObeyed(m, Bytes(p, endpoint, messageId, timestamp), ReadAs(p, there.freshId), id, there);
  }

  lemma Evicted(m: State, ev: Event, id: string, env: Env)
    requires m.distributed && id in m.connections && Expels(ev) && ev.payload.GetStr("userId") == Some(id)
    ensures OnlyWithout(m, Dispatch(m, ev, env), id)
    ensures var said := DispatchSends(m, ev, env); said != [] && SaysLeft(ReadAs(said[|said| - 1], ""), m.nodeId, id)
  {
    LeavePublished(m, id, env.freshId);
  }

  // ---------- asking for a user ----------

  function Question(s: State, id: string, rid: string): Publication {
    Publication(GetRequestEvent(s.name, rid, id, s.nodeId).(nodeId := s.nodeId), "user:get_request")
  }

  function Answer(m: State, id: string, rid: string): Publication {
    Publication(GetResponseEvent(m.name, rid, id, Lookup(m.assigns, id), Lookup(m.presence, id)).(nodeId := m.nodeId),
                "user:get_response")
  }

  lemma QuestionRead(s: State, id: string, rid: string, freshId: string)
    requires s.distributed
    ensures var ev := ReadAs(Question(s, id, rid), freshId);
            && RequestUserSends(s, id, rid) == [Question(s, id, rid)]
            && ev.action == USER_COMMAND && ev.event == "user:get_request" && ev.payload.GetStr("userId") == Some(id)
            && ev.nodeId == s.nodeId && ev.channelName == s.name && ev.payload.GetStr("requestId") == Some(rid)
  {}

  lemma AnswerRead(m: State, id: string, rid: string, freshId: string)
    requires m.distributed
    ensures var ev := ReadAs(Answer(m, id, rid), freshId);
            && ev.action == USER_COMMAND && ev.event == "user:get_response" && ev.payload.GetStr("userId") == Some(id)
            && ev.requestId == rid && ev.nodeId == m.nodeId && ev.channelName == m.name
            && ev.payload.GetObj("assigns") == Some(Lookup(m.assigns, id))
            && ev.payload.GetObj("presence") == Some(Lookup(m.presence, id))
  {}

  /** The id a request is to be answered with: the one in the payload, or else that of the event. */
  predicate AsksWith(ev: Event, rid: string) {
    ev.payload.GetStr("requestId") == Some(rid) || (ev.payload.GetStr("requestId") == None && ev.requestId == rid)
  }

  /** The node answers a request for one of its users with one message, for that request. */
  lemma Answered(m: State, ev: Event, id: string, rid: string, env: Env)
    requires m.distributed && id in m.connections && ev.action == USER_COMMAND && ev.event == "user:get_request"
    requires ev.payload.GetStr("userId") == Some(id) && AsksWith(ev, rid)
    ensures Dispatch(m, ev, env) == m
    ensures DispatchSends(m, ev, env) == [Answer(m, id, rid)]
  {}

  /** What the asker knows after the answer: the user with the assigns, and a presence that says something, under the
      node the answer came from; nobody else is touched. */
  predicate Learned(s: State, t: State, node: string, id: string, assigns: Object, presence: Object) {
    && t.connections == s.connections && t.assigns == s.assigns[id := assigns]
    && t.presence == (if presence == map[] then s.presence else s.presence[id := presence])
    && node in t.nodeUsers && id in t.nodeUsers[node]
    && (forall n, u | n in s.nodeUsers && u in s.nodeUsers[n] :: n in t.nodeUsers && u in t.nodeUsers[n])
    && (forall n, u | n in t.nodeUsers && u in t.nodeUsers[n] ::
          (n == node && u == id) || (n in s.nodeUsers && u in s.nodeUsers[n]))
  }

  lemma AnswerLearned(s: State, ev: Event, id: string, assigns: Object, presence: Object, env: Env)
    requires id !in s.connections && ev.action == USER_COMMAND && ev.event == "user:get_response" && ev.nodeId != ""
    requires ev.payload.GetStr("userId") == Some(id)
    requires ev.payload.GetObj("assigns") == Some(assigns) && ev.payload.GetObj("presence") == Some(presence)
    ensures Learned(s, Dispatch(s, ev, env), ev.nodeId, id, assigns, presence)
  {}

  lemma QuestionAnswered(m: State, data: Value, ev: Event, id: string, rid: string, env: Env)
    requires m.distributed && id in m.connections && Decode(data, env.freshId) == Some(ev) && Concerns(m, ev)
    requires ev.action == USER_COMMAND && ev.event == "user:get_request"
    requires ev.payload.GetStr("userId") == Some(id) && AsksWith(ev, rid)
    ensures Step(m, Receive(data), env) == m && Sends(m, Receive(data), env) == [Answer(m, id, rid)]
  {
    HandlesRead(m, data, ev, env);
    Answered(m, ev, id, rid, env);
  }

  lemma AnswerTaken(s: State, data: Value, ev: Event, id: string, assigns: Object, presence: Object, env: Env)
    requires id !in s.connections && Decode(data, env.freshId) == Some(ev) && Concerns(s, ev) && ev.nodeId != ""
    requires ev.action == USER_COMMAND && ev.event == "user:get_response" && ev.payload.GetStr("userId") == Some(id)
    requires ev.payload.GetObj("assigns") == Some(assigns) && ev.payload.GetObj("presence") == Some(presence)
    ensures Learned(s, Step(s, Receive(data), env), ev.nodeId, id, assigns, presence)
  {
    HandlesRead(s, data, ev, env);
    AnswerLearned(s, ev, id, assigns, presence, env);
  }

  lemma QuestionDelivered(s: State, m: State, id: string, here: Env, there: Env)
    requires Peers(s, m) && id in m.connections
    ensures var data := Bytes(Question(s, id, here.freshId), "", "", 0);
            Step(m, Receive(data), there) == m && Sends(m, Receive(data), there) == [Answer(m, id, here.freshId)]
  {
    var p := Question(s, id, here.freshId);
    QuestionRead(s, id, here.freshId, there.freshId);
    BytesRead(p, "", "", 0, there.freshId);
    QuestionAnswered(m, Bytes(p, "", "", 0), ReadAs(p, there.freshId), id, here.freshId, there);
  }

  lemma AnswerDelivered(s: State, m: State, id: string, here: Env)
    requires Peers(s, m) && id !in s.connections
    ensures Learned(s, Step(s, Receive(Bytes(Answer(m, id, here.freshId), "", "", 0)), here), m.nodeId, id,
                    Lookup(m.assigns, id), Lookup(m.presence, id))
  {
    var q := Answer(m, id, here.freshId);
    AnswerRead(m, id, here.freshId, here.freshId);
    BytesRead(q, "", "", 0, here.freshId);
    AnswerTaken(s, Bytes(q, "", "", 0), ReadAs(q, here.freshId), id, Lookup(m.assigns, id), Lookup(m.presence, id), here);
  }

  /** A node that asks for a user connected elsewhere, and whose request and answer are delivered, holds exactly the
      assigns and the presence that the user's node holds. */
  lemma AskedUserArrives(s: State, m: State, id: string, here: Env, there: Env)
    requires Peers(s, m) && id !in s.connections && id in m.connections
    ensures
      var asked := Sends(s, AskForUser(id), here);
      && |asked| == 1
      && var answer := Sends(m, Receive(Bytes(asked[0], "", "", 0)), there);
         && |answer| == 1 && Step(m, Receive(Bytes(asked[0], "", "", 0)), there) == m
         && answer[0].ev.requestId == here.freshId
         && Learned(s, Step(s, Receive(Bytes(answer[0], "", "", 0)), here), m.nodeId, id, Lookup(m.assigns, id),
                    Lookup(m.presence, id))
  {
    QuestionRead(s, id, here.freshId, there.freshId);
    var p, q := Question(s, id, here.freshId), Answer(m, id, here.freshId);
    assert Sends(s, AskForUser(id), here) == [p];
    QuestionDelivered(s, m, id, here, there);
    AnswerDelivered(s, m, id, here);
  }
}
