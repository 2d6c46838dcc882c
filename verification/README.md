# Verified model of PondSocket

PondSocket gives web clients channels over a WebSocket: clients join a channel by name, send and receive
broadcasts, and share presence; servers keep per-user data ("assigns") and can run as several nodes that exchange
messages over a pub/sub. This project models the parts of it where state, ordering and interleaving decide whether
it works, and proves what those parts keep.

`dafny verify dfyconfig.toml` checks everything.

## What is modelled

Each component has a specification (functions on a state value), an imperative form where the source changes
objects in place (a class whose methods are proved equal to those functions), and a module of lemmas over whole
runs or over all inputs.

| component | source | specification | imperative form | laws |
|---|---|---|---|---|
| wire format of node messages | Rust server | `Json`, `Wire` | | `WireLaws` |
| channel replica on one node | Rust server | `ChannelSpec`, `NodeSteps` | `ChannelReplica` | `NodeLaws`, `Partition`, `Cluster`, `Moves`, `MovedUser`, `Overtaken`, `Liveness`, `Routing`, `Commands`, `Presence`, `PresenceRuns`, `Views`, `Convergence`, `Agreement`, `Settling`, `InTurn`, `RemoteUpdate` |
| lobby (channels by name) | Rust server | `LobbySpec` | `LobbyMap` | `LobbyRuns` |
| local pub/sub | Rust server | `PubSubSpec` | `LocalBus` | `PubSubRuns` |
| token bucket limiter | Rust server | `TokenBucket` | `TokenBucket` | `TokenBucket` |
| path parser | Rust server | `PathSpec` | `PathParser` | `PathLaws`, `PathTrip`, `PathDecode`, `QueryTrip` |
| client channel | Rust client | `ClientSpec` | `ClientChannel` | `ClientRuns`, `ClientLaws` |
| client channel | JavaScript client | `JsChannelSpec` | `JsChannel` | `JsChannelRuns`, `JsChannelLaws` |
| routes | JavaScript | `Texts`, `Percent`, `RouteSpec` | `Route` | `Percent`, `RouteLaws`, `RouteTrip`, `RouteErrors` |
| channel membership | Go server | `MembershipSpec` | `GoChannel` | `MembershipRuns`, `MembershipLaws` |

A run takes one handler at a time as one step. The clock, fresh ids and the order in which a hash map is listed are
parameters of the steps, so every lemma holds for all their values.

## What the code does that its promises do not say

Each of these is a lemma. Where a promise fails for some inputs only, the lemma gives the exact condition in terms of the
input or the state before the operation, and another lemma gives an input, or a run from the start, for which it fails.

- An assigns update travels without its key and value: the receiver merges the whole map it carries
  (`WireLaws.CodecRoundTrip`). A receiver that never gets it is therefore repaired by the next one.
- A command other than the known ones is published as an eviction, and any other unknown event as a plain user
  message. A presence update republished under a subtype ending in `remove` would become a leave
  (`WireLaws.SecondTrip`, if and only if); the server itself never publishes under such a subtype
  (`NodeSteps.PublishedReadsTheSame`).
- A broadcast with no recipient on the sending node is not published; a list that names a user twice delivers twice;
  a broadcast from the sender `""` is read elsewhere as coming from `CHANNEL` (`Routing.BroadcastReaches`, if and
  only if; `Routing.SilentNode`, `TwiceListed` and `NamelessSender` show one broadcast each).
- A user who moves from one node to another is in two places on a replica that handles the second join before the first
  leave, as is one who is at two nodes at once, and is left without assigns there when the leave comes last
  (`MovedUser.MovedUserLost` is such a run). For every step of a node, `Moves.StepKeepsPlaces` and
  `Moves.StepKeepsTables` say exactly when it breaks the tables: a join or an answer from a second node, a local join
  of a user recorded elsewhere, and a leave, a removal or a sweep of one of two places. `Moves.ArrivalInRuns` says it
  for every message in every run.
- A leave that is handled before the join it follows leaves the user recorded, and the channel in use, for as long as the
  node keeps sending heartbeats and says no further leave of that user: exactly the last word about a user counts
  (`Overtaken.LastWordCounts`, if and only if; `Overtaken.LeaveOvertakesJoin` is such a run).
- A presence that names another user in its `userId` is stored elsewhere under that other user
  (`Presence.ForeignPresence`); one that does not is stored under its own user, with the id put in
  (`Presence.TrackReaches`). An empty presence is not taken over by a node that opens later
  (`PresenceRuns.NewcomerMirrors`, if and only if).
- A node that is dropped as stale though it is open is not asked for its users again (`Agreement.OnlyOpeningAsks`): the
  two agree about its users right after if and only if it has none (`Agreement.DroppedAgreesWhenEmpty`;
  `InTurn.DroppedThoughOpen` is such a run).
- What a sweep leaves of a stale node is the presence of users that were not recorded when it came
  (`Liveness.PresenceAfterSweep`, if and only if).
- An assign update issued from a node that is not the user's home changes the home and leaves the issuer behind
  (`Convergence.RemoteAssignLeavesIssuerBehind`, if and only if the value is new; `RemoteUpdate.IssuerStaysBehind` is
  such a run).
- A route parameter named `__proto__` is lost by the JavaScript parser; a wildcard with a `?` or a line end does not
  come back (`RouteTrip.RouteRoundTrip`, if and only if; `RouteTrip.ProtoNotRead`, `RouteTrip.WildcardNotRead`).
- Everything a route declares behind its first wildcard is ignored by the Rust parser
  (`PathTrip.AfterWildcardIgnored`); a value with a `%` escape in it does not come back
  (`PathTrip.PathRoundTrip`, if and only if; `PathTrip.EscapedValueLost`), and neither does a key or a value of a query
  (`QueryTrip.QueryRoundTrip`, if and only if). A query of one empty key is no query (`QueryTrip.QueryReads`), and a plus
  sign is read as the first digit of an escape (`PathDecode.AnyWritingRead`).
- A queue limit of 0 is no limit in the Rust client (`ClientRuns.NoLimitAtZero`). Such a client never connects, because
  the same number sizes a channel for which 0 is refused by a panic (`rust/pondsocket-client/src/lib.rs:200`), so its
  queue keeps everything until the channel is closed (`ClientRuns.ZeroKeepsEverything`). In the JavaScript client the
  limit 0 is a limit of 1 (`JsChannelRuns.StepSound`).
- A first join of a JavaScript channel that is under way when the connection breaks is not repeated on the next
  connection (`JsChannelRuns.RepeatedOnReconnect`, if and only if; `JsChannelRuns.FirstJoinNotRepeated` is such a run).
- In Go, the only member of a channel, its connection gone, that rejoins over a connection that is gone as well leaves
  an empty channel that nobody destroys; every other step that empties a channel starts one destruction
  (`MembershipRuns.EmptiedIsDestroyed`, if and only if; `EmptiedButNotDestroyed` is such a run). A destruction that
  runs late ends those who joined meanwhile without announcing it (`MembershipRuns.ClosingEndsUnannounced`;
  `LateDestructionEndsNewMember` is such a run).
- The limiter never grants anything when its capacity is below one token, and grants the first call otherwise
  (`TokenBucket.NothingBelowOneToken`).

## Model

| member | source | states |
|---|---|---|
| WireLaws.CodecRoundTrip | rust/pondsocket/src/channel.rs:1272-1652 | Encoding any event under any subtype and decoding it gives exactly its closed form `Received`, whatever the endpoint, message id and clock, across all thirteen types. |
| WireLaws.NormalForm | rust/pondsocket/src/channel.rs:1272-1652 | Publishing what was received gives the same event again up to a fresh request id, if and only if it is not a presence update under a subtype ending in `remove`. |
| WireLaws.SecondTrip | rust/pondsocket/src/channel.rs:1272-1652 | The same about bytes: an event encoded, read, encoded and read again is the one read first, with that one exception. |
| NodeSteps.PublishedReadsTheSame | rust/pondsocket/src/channel.rs:681-712 | No step of a node publishes under a subtype ending in `remove`, so the exception does not arise from what the server publishes. |
| WireLaws.TypeIsStable | rust/pondsocket/src/channel.rs:1272-1345 | The type a received event is republished as is its own, with that one exception. |
| Json.OnlyStrsOfStrs | rust/pondsocket/src/channel.rs:1464-1492 | A recipient list is read back from the wire as it was written. |
| WireLaws.KindTravels | rust/pondsocket/src/channel.rs:1272-1652 | Every event arrives with its channel and source as one of its kind: unknown kinds as broadcasts, unknown commands as evictions, presence changes as leave or update. |
| WireLaws.EnvelopeTells | rust/pondsocket/src/channel.rs:1294-1301 | Every message says its protocol, version, type, channel, source, endpoint, id and time. |
| WireLaws.ReadExactly | rust/pondsocket/src/channel.rs:1447-1652 | A message is read if and only if it has the protocol, the version, a known type, a channel and a source, and, if it is a user message, an event. |
| WireLaws.MissingMembers | rust/pondsocket/src/channel.rs:1447-1652 | Writing the defaults in where members are missing does not change what is read. |
| ChannelReplica.Channel.IsIdle | rust/pondsocket/src/channel.rs:164-168 | True exactly when no local user, no join in flight and no recorded remote user holds the channel. |
| ChannelReplica.Channel.Start | rust/pondsocket/src/channel.rs:170-192 | The channel is active and has asked the other nodes for their users. |
| ChannelReplica.Channel.Close | rust/pondsocket/src/channel.rs:194-217 | The channel is inactive and all its tables are empty. |
| ChannelReplica.Channel.AddUser | rust/pondsocket/src/channel.rs:227-250 | Refuses an inactive channel and a user already connected; else records connection and assigns and publishes the join. |
| ChannelReplica.Channel.RemoveUser | rust/pondsocket/src/channel.rs:252-290 | Removes connection, assigns and presence of a connected user, publishes presence leave and leave, asks for an idle check; nothing for anybody else. |
| ChannelReplica.Channel.UpdateAssign | rust/pondsocket/src/channel.rs:317-339 | Publishes the update always and changes the own copy only of a connected user. |
| ChannelReplica.Channel.TrackPresence | rust/pondsocket/src/channel.rs:341-353 | Refuses a value that is no object and a user already tracked. |
| ChannelReplica.Channel.UpdatePresence | rust/pondsocket/src/channel.rs:355-367 | Refuses a value that is no object and a user not tracked. |
| ChannelReplica.Channel.UntrackPresence | rust/pondsocket/src/channel.rs:369-376 | Forgets the presence and publishes the leave of a tracked user. |
| ChannelReplica.Channel.EvictUser | rust/pondsocket/src/channel.rs:472-487 | Removes a user connected here, and leaves any other to its node by a published command. |
| ChannelReplica.Channel.SendEvent | rust/pondsocket/src/channel.rs:512-552 | Queues and publishes an event with recipients, and neither without. |
| ChannelReplica.Channel.Broadcast | rust/pondsocket/src/channel.rs:378-438 | The three broadcasts with their recipients on this node. |
| ChannelReplica.Channel.FilterOut | rust/pondsocket/src/channel.rs:418-438 | The loop that leaves the sender out computes `Without`. |
| ChannelReplica.Channel.FilterConnected | rust/pondsocket/src/channel.rs:654-678 | The loop over listed recipients keeps the connected ones in order. |
| ChannelReplica.Channel.HandlePubsubMessage | rust/pondsocket/src/channel.rs:809-820 | Own messages, messages of other channels and unreadable ones change nothing; others are dispatched. |
| ChannelReplica.Channel.DispatchEvent | rust/pondsocket/src/channel.rs:633-679 | Each action goes to its handler; everything else is queued for the selected users. |
| ChannelReplica.Channel.HandleRemotePresence | rust/pondsocket/src/channel.rs:592-615 | A leave removes the presence, anything else replaces it. |
| ChannelReplica.Channel.HandleRemoteAssigns | rust/pondsocket/src/channel.rs:852-870 | Only a known user's assigns change: one key, or all that the message carries. |
| ChannelReplica.Channel.HandleRemoteUserCommand | rust/pondsocket/src/channel.rs:872-948 | Evict and remove act on a connected user, a request is answered by the user's node, a response is taken in by the others. |
| ChannelReplica.Channel.TrackUser | rust/pondsocket/src/channel.rs:1046-1061 | The user is recorded under the node, and a node not seen before counts as seen now. |
| ChannelReplica.Channel.UntrackUser | rust/pondsocket/src/channel.rs:1063-1074 | The user is no longer recorded, and a node left without users is forgotten. |
| ChannelReplica.Channel.HandleRemoteUserJoined | rust/pondsocket/src/channel.rs:1153-1176 | A user of another node is taken in with assigns and presence. |
| ChannelReplica.Channel.HandleRemoteUserLeft | rust/pondsocket/src/channel.rs:1178-1191 | A user not connected here is forgotten, and an idle check asked for. |
| ChannelReplica.Channel.AnswerStateRequest | rust/pondsocket/src/channel.rs:1088-1122 | Publishes all local users with their data, and nothing without local users. |
| ChannelReplica.Channel.TakeStateResponse | rust/pondsocket/src/channel.rs:1124-1151 | The loop takes in every listed user that is not connected here. |
| ChannelReplica.Channel.HandleHeartbeatMessage | rust/pondsocket/src/channel.rs:1004-1013 | A heartbeat of another node counts as seeing it now. |
| ChannelReplica.Channel.CleanupStaleNodes | rust/pondsocket/src/channel.rs:1015-1044 | The nested loops drop exactly the nodes unseen for the timeout, with exactly their users, and ask for an idle check if there were any. |
| ChannelReplica.DropOneMore | rust/pondsocket/src/channel.rs:1015-1044 | Dropping stale nodes one after the other is dropping them all at once. |
| NodeSteps.StepIdentity | rust/pondsocket/src/channel.rs:809-1191 | No step changes a channel's name or node id, and only closing makes it inactive. |
| NodeLaws.OtherChannelUntouched | rust/pondsocket/src/channel.rs:809-820 | Nothing that is published for a channel of another name changes a channel or makes it publish. |
| NodeLaws.OwnMessageUntouched | rust/pondsocket/src/channel.rs:809-820 | A node's own messages, brought back by the pub/sub, change nothing. |
| NodeLaws.HandledExactly | rust/pondsocket/src/channel.rs:809-820 | A readable message is handled if and only if it is for this channel and not from this node; one without a source is nobody's own. |
| NodeLaws.UndistributedIsSilent | rust/pondsocket/src/channel.rs:796-807 | Without a pub/sub a node publishes nothing in any step. |
| NodeLaws.JoinRefused | rust/pondsocket/src/channel.rs:227-250 | Which joins are refused, if and only if; a refused one changes and publishes nothing, a successful one leaves exactly the given assigns. |
| NodeLaws.UpdateRefused | rust/pondsocket/src/channel.rs:317-339 | An update sets one key of a connected user and keeps the others, is refused for anybody else, and is published in both cases. |
| NodeLaws.PresenceRefused | rust/pondsocket/src/channel.rs:341-376 | Which presences are refused, if and only if, and that refusals change and publish nothing. |
| NodeLaws.OperationFrame | rust/pondsocket/src/channel.rs:227-487 | What each operation may touch, and for whom; everything else stays as it was. |
| NodeLaws.MessageFrame | rust/pondsocket/src/channel.rs:592-679 | What a handled message may touch, by its kind; everything else stays as it was. |
| NodeLaws.NamelessUnrecorded | rust/pondsocket/src/channel.rs:1046-1074 | A message without a source node records nobody and counts no node as seen. |
| NodeLaws.HeartbeatDecided | rust/pondsocket/src/channel.rs:1004-1013 | The handler of heartbeats counts those of other nodes as seeing them now, and nothing else. |
| NodeLaws.RequestAnswered | rust/pondsocket/src/channel.rs:1088-1122 | A state request is answered once by a node with users and not at all by one without. |
| NodeLaws.AssignsDecided | rust/pondsocket/src/channel.rs:852-870 | An assigns message sets the key it names, or all that it carries, for a user with assigns here, and for nobody else. |
| Partition.StepPartitioned | rust/pondsocket/src/channel.rs:227-290 | Every step keeps the partition: ids with assigns are the connected users and those recorded under their home, no empty remote set, a last-seen time for each recorded node. |
| Partition.SendsGenuine | rust/pondsocket/src/channel.rs:1088-1122 | Whatever a node publishes speaks about its own users only. |
| Partition.SweepPartitioned | rust/pondsocket/src/channel.rs:1015-1044 | A sweep takes the users of stale nodes along, and nobody else's. |
| Partition.LearnAllPartitioned | rust/pondsocket/src/channel.rs:1124-1151 | Taking in a state response keeps the partition. |
| Cluster.RunSound | rust/pondsocket/src/channel.rs:809-820 | Partition and genuineness hold in every run over a network that reorders, duplicates and loses. |
| Cluster.ReplicaPartition | rust/pondsocket/src/channel.rs:227-290 | In every such run, with one home per user, each node's assigns are exactly those of its connections and its recorded remote users, disjointly, and an idle channel holds none. |
| Moves.PartitionIsBoth | rust/pondsocket/src/channel.rs:1046-1074 | That relation is the same as: assigns agree with connected and recorded users, each user is in one place, and the node tables are in order. |
| Moves.StepKeepsTables | rust/pondsocket/src/channel.rs:809-1191 | Without homes: any step keeps assigns in agreement with the users if and only if nobody it takes out of one place is in another. |
| Moves.StepKeepsPlaces | rust/pondsocket/src/channel.rs:809-1191 | Without homes: any step keeps users in one place each if and only if nobody it brings in was recorded elsewhere. |
| Moves.LateLeaveBreaksTables | rust/pondsocket/src/channel.rs:1178-1191 | A leave breaks the agreement if and only if another node has the user recorded, also when the second join was handled before. |
| Moves.SecondJoinSharesUser | rust/pondsocket/src/channel.rs:1153-1176 | A handled join puts a user in two places if and only if another node has the user recorded. |
| Moves.LocalJoinSharesUser | rust/pondsocket/src/channel.rs:227-250 | A local join does so if and only if the user is recorded for some node. |
| Moves.SweepBreaksTables | rust/pondsocket/src/channel.rs:1015-1044 | A sweep breaks the agreement if and only if a user of a stale node is connected here or recorded for a node that stays. |
| Moves.ArrivalInRuns | rust/pondsocket/src/channel.rs:809-820 | Both equivalences hold for every message that arrives in any run of the cluster. |
| MovedUser.MovedUserLost | rust/pondsocket/src/channel.rs:1153-1191 | A run in which a user moves, a third node hears of the leave last, and has the user recorded but no assigns. |
| Overtaken.LastWordCounts | rust/pondsocket/src/channel.rs:1046-1191 | In any order of arrival, while a node keeps beating, a user is recorded for it if and only if the last message about the user says so, or there was none and the user was recorded before. |
| Overtaken.OvertakenStays | rust/pondsocket/src/channel.rs:1015-1074 | After such a message the user stays recorded and the channel is not idle. |
| Overtaken.LeaveOvertakesJoin | rust/pondsocket/src/channel.rs:1153-1191 | A run in which a leave arrives before its join: nobody is connected anywhere and a node has the user recorded. |
| Liveness.SweepOf | rust/pondsocket/src/channel.rs:1015-1044 | What a sweep does to one node's entries: gone if unseen for the timeout, untouched otherwise. |
| Liveness.SilentNodeForgotten | rust/pondsocket/src/channel.rs:987-1044 | With sweeps at most one timeout apart, a node silent since `t` has no user recorded and no assigns left from `t` plus two timeouts on. |
| Liveness.PresenceAfterSweep | rust/pondsocket/src/channel.rs:1015-1044 | After a sweep a user of a stale node has a presence if and only if the user had one and was not recorded. |
| Liveness.HeardNodeKeepsUsers | rust/pondsocket/src/channel.rs:1004-1044 | A sweep less than a timeout after a handled heartbeat of a node takes none of its users and none of their data. |
| Liveness.NoSweepTakesUsers | rust/pondsocket/src/channel.rs:987-1044 | In a run with heartbeats of a node handled less than a timeout apart, from a point on no sweep takes one of its users or their assigns. |
| Liveness.BeatingNodeKeepsUsers | rust/pondsocket/src/channel.rs:987-1044 | With nothing but such heartbeats from the node, the users recorded for it stay the same throughout. |
| Routing.NodeDelivers | rust/pondsocket/src/channel.rs:512-552 | How often each node sends a broadcast to a user, through the wire format, in every case. |
| Routing.BroadcastReaches | rust/pondsocket/src/channel.rs:378-438 | A node sends to a connected user once if intended and else not, if and only if the broadcast is deliverable there. |
| Routing.SilentNode | rust/pondsocket/src/channel.rs:512-552 | A node without users broadcasts to all: the user of the other node gets nothing. |
| Routing.TwiceListed | rust/pondsocket/src/channel.rs:378-438 | A list with one user twice: the user gets the message twice. |
| Routing.NamelessSender | rust/pondsocket/src/channel.rs:1464-1492 | A broadcast by the sender `""`: the user `CHANNEL` of the other node gets nothing. |
| Routing.ExactlyOnce | rust/pondsocket/src/channel.rs:654-678 | With unique homes a deliverable broadcast reaches each intended user exactly once in the whole cluster, and nobody else. |
| Routing.BroadcastCarries | rust/pondsocket/src/channel.rs:512-552 | On every node the queue of events to deliver is the old one, or the old one and one event with exactly the given name, payload and request id, of this channel and the sending node. |
| Commands.EvictionReaches | rust/pondsocket/src/channel.rs:472-487 | Evicting a user of another node publishes one command; delivered, that node has the user no more, everybody else as before, and says so last. |
| Commands.CommandObeyed | rust/pondsocket/src/channel.rs:872-902 | A command to evict or to remove takes exactly that user out of the user's node, which announces it. |
| Commands.CommandPassedBy | rust/pondsocket/src/channel.rs:872-948 | At any other node such a command, and a request for the user, changes nothing and is not answered; the user's node takes no answer about its own user. |
| Commands.AskedUserArrives | rust/pondsocket/src/channel.rs:1217-1232 | Asking for a user of another node, with request and answer delivered, gives the asker exactly the assigns and the presence that node holds. |
| Presence.HeldUnder | rust/pondsocket/src/channel.rs:592-615 | A presence event is taken for the user its object names: a leave removes the presence, any other event stores the object; nobody named, nothing changed. |
| Presence.TrackReaches | rust/pondsocket/src/channel.rs:592-615 | After a tracked or updated presence is handled elsewhere, that node holds for the user the very object with the id put in, and for everybody else what it held. |
| Presence.UntrackReaches | rust/pondsocket/src/channel.rs:592-615 | After an untrack or a removal is handled elsewhere, that node holds no presence of the user, and for everybody else what it held. |
| Presence.ForeignPresence | rust/pondsocket/src/channel.rs:341-353 | A presence tracked for `ann` that names `bob` appears elsewhere as that of `bob`. |
| PresenceRuns.NewcomerMirrors | rust/pondsocket/src/channel.rs:1088-1151 | A node that knew nothing mirrors a user's presence after the answer to its state request if and only if it is not the empty object. |
| PresenceRuns.RunMirrored | rust/pondsocket/src/channel.rs:341-376 | Over any run of the home, a node that handles in order all that the home publishes keeps mirroring every user it mirrored. |
| Views.DispatchView | rust/pondsocket/src/channel.rs:852-948 | A handled message changes the view of the node it comes from as it says, and no other view. |
| Views.StepTold | rust/pondsocket/src/channel.rs:317-339 | What a step publishes tells exactly how the node's own assigns changed. |
| Views.AnswerTold | rust/pondsocket/src/channel.rs:1088-1122 | A state response brings any partial view to the full one. |
| Convergence.RunSound | rust/pondsocket/src/channel.rs:1088-1191 | Over in-order queues: folding what is queued over a view gives exactly the home's assigns once the home has opened after the viewer or answered it, and a part of them before. |
| Convergence.Converged | rust/pondsocket/src/channel.rs:1088-1151 | Once a node has told another all, by opening after it or by an answer, or is closed, and its queue to it is empty, the other's assigns for that node's users equal the node's own; they are never more. |
| Convergence.AgreesWithHome | rust/pondsocket/src/channel.rs:1088-1191 | A node to which all has arrived that a user's home has to say agrees with the home about that user; other nodes do not matter. |
| Convergence.CaughtUpNodesAgree | rust/pondsocket/src/channel.rs:1088-1191 | Two nodes that have caught up, whichever opened first, hold the same assigns. |
| Agreement.PairAgrees | rust/pondsocket/src/channel.rs:1076-1191 | In every run, when nothing is on its way between two nodes and no sweep of the open one has dropped the other, it holds exactly the other's assigns for the other's users. |
| Agreement.QuietClusterAgrees | rust/pondsocket/src/channel.rs:1076-1191 | In every run without a node dropped as stale, whenever nothing is on its way, any two open nodes hold the same assigns for every user, which are those of the user's home. |
| Agreement.DroppedAgreesWhenEmpty | rust/pondsocket/src/channel.rs:1015-1044 | After a sweep that drops an open node the two agree about its users if and only if it has none. |
| Agreement.OnlyOpeningAsks | rust/pondsocket/src/channel.rs:1076-1086 | No step of an open node publishes a state request. |
| Settling.DeliveriesEnd | rust/pondsocket/src/channel.rs:809-948 | In whatever order messages are delivered, deliveries alone end: there are no more in a row than the burden of what is on its way. |
| Settling.ComesToRest | rust/pondsocket/src/channel.rs:809-948 | Every run can be continued by deliveries alone until nothing is on its way. |
| Settling.EventuallyAgrees | rust/pondsocket/src/channel.rs:1076-1191 | Every run without a node dropped as stale can be continued by deliveries alone until all open nodes hold the same assigns for every user. |
| InTurn.BothCatchUp | rust/pondsocket/src/channel.rs:1076-1176 | A run of two nodes opened one after the other, each with a user: both end caught up and hold both users. |
| InTurn.DroppedThoughOpen | rust/pondsocket/src/channel.rs:1015-1044 | That run with a sweep added: nothing is on its way, both nodes are open, and one has lost the other's user. |
| Convergence.OpeningAsksEveryone | rust/pondsocket/src/channel.rs:1076-1086 | Opening a channel puts one state request last in the queue to every other open node. |
| Convergence.RequestIsAnswered | rust/pondsocket/src/channel.rs:1088-1122 | Delivering that request is an answer to everybody who is open. |
| Convergence.RemoteAssignLeavesIssuerBehind | rust/pondsocket/src/channel.rs:317-339 | After an update from a node that is not the home, the two agree if and only if the value was there before. |
| RemoteUpdate.IssuerStaysBehind | rust/pondsocket/src/channel.rs:317-339 | A run in which the update reaches the home, which has the new value, while the issuer has none. |
| LobbyMap.ChannelLobby.GetOrCreateLocked | rust/pondsocket/src/lobby.rs:112-133 | Finds the channel of a name or makes and starts one; nothing else changes. |
| LobbyMap.ChannelLobby.AcquireForJoin | rust/pondsocket/src/lobby.rs:87-92 | As above, with one more join in flight on that channel. |
| LobbyMap.ChannelLobby.FinishJoin | rust/pondsocket/src/lobby.rs:94-97 | One join less in flight, then the idle check of that name. |
| LobbyMap.ChannelLobby.RemoveChannelIfIdle | rust/pondsocket/src/lobby.rs:99-110 | Takes out and closes the channel of a name exactly if it is idle. |
| LobbyRuns.StepEmpties | rust/pondsocket/src/channel.rs:1015-1044 | Every channel step that ends the last local or remote user asks for an idle check. |
| LobbyRuns.FinishEnabled | rust/pondsocket/src/lobby.rs:94-97 | The in-flight count is never zero when a join in flight finishes. |
| LobbyRuns.RunSound | rust/pondsocket/src/lobby.rs:82-133 | The invariant of lobby, joins, checks and channels in every interleaving. |
| LobbyRuns.SafeAcquisition | rust/pondsocket/src/endpoint.rs:211-254 | A join in flight holds an active channel its name leads to; joins of one name hold the same channel; adding a user to it never fails as inactive. |
| LobbyRuns.NoLeak | rust/pondsocket/src/lobby.rs:94-110 | With no idle check outstanding, every channel that a join ever acquired and that is still in the map is in use. |
| LobbyRuns.RemovedIsUnused | rust/pondsocket/src/lobby.rs:99-110 | In every run an idle check would remove a channel if and only if no join, local user or remote user holds it. |
| LobbyRuns.ActiveExactly | rust/pondsocket/src/lobby.rs:99-110 | In every run a channel object is active if and only if its name leads to it or its closing is to come, and then only it takes users. |
| LobbyRuns.ClosedRefusesUsers | rust/pondsocket/src/lobby.rs:107-109 | Once a removed channel is closed, no user can be added over an old reference, whatever follows. |
| LobbyRuns.RemovedAltogether | rust/pondsocket/src/lobby.rs:99-110 | Removal without interruption: the name of an idle channel is gone, its object refuses users, nothing else changes; a channel in use is left alone. |
| LobbyRuns.FoundOrMade | rust/pondsocket/src/lobby.rs:112-133 | A known name leads to its object; another gets a new, active, empty channel of that name, and nothing else changes. |
| LobbyRuns.AllOnItsNode | rust/pondsocket/src/lobby.rs:112-133 | In every run all channels of a lobby are on its node, and published for others or not like the lobby's. |
| LocalBus.LocalPubSub.Subscribe | rust/pondsocket/src/pubsub.rs:47-67 | A new id at the end of the pattern's list; refused after closing. |
| LocalBus.LocalPubSub.Unsubscribe | rust/pondsocket/src/pubsub.rs:69-82 | The id leaves the pattern's list, and an empty list goes; unknown patterns and closing are errors. |
| LocalBus.LocalPubSub.Publish | rust/pondsocket/src/pubsub.rs:84-97 | The loop hands the message to exactly the subscriptions of matching patterns whose buffers have room; an error after closing. |
| PubSubRuns.SubscribeAdds | rust/pondsocket/src/pubsub.rs:47-67 | A subscription gets an id never given before and leaves all others as they were. |
| PubSubRuns.UnsubscribeRemoves | rust/pondsocket/src/pubsub.rs:69-82 | Unsubscribing one id of a pattern leaves every other subscription. |
| PubSubRuns.SubscriptionsConserved | rust/pondsocket/src/channel.rs:757-794 | After any run of starts and closes the bus holds exactly the subscriptions of the open channels: for each one to the heartbeats and, if and only if it has a path, a different one to its topic; a publication is taken by exactly those whose pattern is its topic, or ends in `.*` behind a beginning of it, and that have room. |
| PubSubRuns.IdsNeverReused | rust/pondsocket/src/pubsub.rs:47-67 | A channel started later shares no id with one that held a subscription earlier. |
| PubSubRuns.MatchesExactly | rust/pondsocket/src/pubsub.rs:106-114 | A pattern matches its own text, and `p.*` also every text that begins with `p`; nothing else. |
| PubSubRuns.ClosedForGood | rust/pondsocket/src/pubsub.rs:47-104 | A closed pub/sub holds nothing, takes nothing, delivers nothing and says so. |
| PubSubRuns.OpenOutcomes | rust/pondsocket/src/pubsub.rs:69-97 | An open one delivers without error, and refuses to give up a subscription if and only if its pattern has none. |
| TokenBucket.TokenBucketRateLimiter.Allow | rust/pondsocket/src/hooks.rs:110-126 | Decision and new buckets of one call. |
| TokenBucket.TokenBucketRateLimiter.Reset | rust/pondsocket/src/hooks.rs:128-130 | The bucket of the key is gone, the others stay. |
| TokenBucket.LevelIsLeastBudget | rust/pondsocket/src/hooks.rs:116-125 | The tokens in a bucket are the least, over all its calls, of a full bucket then, refilled and charged since. |
| TokenBucket.BucketOfHistory | rust/pondsocket/src/hooks.rs:110-130 | After any history the bucket of a key depends on the calls for that key since it was made, and on nothing else. |
| TokenBucket.ExactTokenBucket | rust/pondsocket/src/hooks.rs:110-126 | A call is granted if and only if for every call for its key since the bucket was made the capacity, plus the refill since, minus the grants the history made since, is at least one. |
| TokenBucket.RateBound | rust/pondsocket/src/hooks.rs:96-126 | In any stretch of a history without reset a key is granted at most the capacity plus rate times length. |
| TokenBucket.NothingBelowOneToken | rust/pondsocket/src/hooks.rs:110-126 | With a capacity below one no call of any history is granted; the first call of a bucket is granted if and only if the capacity is at least one. |
| TokenBucket.NoStarvation | rust/pondsocket/src/hooks.rs:96-126 | Calls spaced by the time of one token are all granted if and only if the capacity is at least one, whatever other keys do. |
| PathParser.SplitPath | rust/pondsocket/src/parser.rs:89-99 | The trim-and-replace loop terminates and returns exactly the non-empty pieces. |
| PathParser.MatchAll | rust/pondsocket/src/parser.rs:59-87 | The loop over segments matches and binds as specified. |
| PathParser.Decode | rust/pondsocket/src/parser.rs:101-118 | The decoding loop computes `PercentDecode`, with Rust's reading of the two digits. |
| PathParser.ParseQuery | rust/pondsocket/src/parser.rs:19-27 | The values of each key in order of appearance. |
| PathParser.ParsePath | rust/pondsocket/src/parser.rs:6-57 | The whole parser. |
| PathLaws.PiecesConcat | rust/pondsocket/src/parser.rs:89-99 | A slash separates pieces and nothing else about it matters. |
| PathLaws.HalveKeepsPieces | rust/pondsocket/src/parser.rs:90-93 | One pass of replacement keeps the pieces. |
| PathLaws.TidyPieces | rust/pondsocket/src/parser.rs:94-98 | A text without outer or double slashes is split into its non-empty pieces. |
| PathTrip.SlashesDoNotMatter | rust/pondsocket/src/parser.rs:6-35 | Doubling a slash, or adding one in front or behind, does not change how a path is parsed. |
| PathTrip.ParseExactly | rust/pondsocket/src/parser.rs:29-87 | Which paths a route reads, piece by piece, with and without a wildcard. |
| PathTrip.AfterWildcardIgnored | rust/pondsocket/src/parser.rs:29-38 | What a route declares behind its first wildcard has no effect. |
| PathTrip.ReadsFilled | rust/pondsocket/src/parser.rs:29-87 | A filled route of literals, `:name`, `prefix:name` and a trailing wildcard is read as the decoded values and the rest of the path. |
| PathTrip.PathRoundTrip | rust/pondsocket/src/parser.rs:6-118 | It gives the values back if and only if none of them has an escape in it. |
| PathTrip.EscapedValueLost | rust/pondsocket/src/parser.rs:101-118 | The value `%41` comes back as `A`. |
| PathDecode.AnyWritingRead | rust/pondsocket/src/parser.rs:101-118 | However the characters of a text are written, as they are or escaped with large or small digits, the text is read back. |
| PathDecode.OtherPercentKept | rust/pondsocket/src/parser.rs:101-118 | A percent sign that starts no escape stands for itself. |
| QueryTrip.QueryReads | rust/pondsocket/src/parser.rs:19-27 | A written query is read as exactly its keys, decoded, each with its decoded values in order; the one exception is a single empty key. |
| QueryTrip.ReadsQuery | rust/pondsocket/src/parser.rs:6-57 | A query does not change how the path in front of it is matched. |
| QueryTrip.QueryRoundTrip | rust/pondsocket/src/parser.rs:6-57 | Reading a written query gives every key back with its values in order if and only if no key and no value has an escape in it. |
| ClientChannel.Channel.Join | rust/pondsocket-client/src/lib.rs:319-331 | Joins once from any state that is not joining, joined, declined or closed. |
| ClientChannel.Channel.Leave | rust/pondsocket-client/src/lib.rs:333-346 | Sends the leave if it can and closes. |
| ClientChannel.Channel.SendMessage | rust/pondsocket-client/src/lib.rs:348-360 | Sends or queues a broadcast; nothing on a closed channel. |
| ClientChannel.Channel.SendForResponse | rust/pondsocket-client/src/lib.rs:362-393 | The same, with its id among the waiting requests; refused on a closed channel. |
| ClientChannel.Channel.EnqueueOrSend | rust/pondsocket-client/src/lib.rs:395-410 | What is sent at once, what is queued, and which message a full queue gives up. |
| ClientChannel.Channel.OnConnectionChange | rust/pondsocket-client/src/lib.rs:412-435 | Stalls on a lost connection; on a new one drops queued joins and joins again. |
| ClientChannel.Channel.HandleEvent | rust/pondsocket-client/src/lib.rs:437-488 | Eviction, acknowledgement, refusals, responses and messages, in this order of precedence. |
| ClientChannel.Channel.Acknowledge | rust/pondsocket-client/src/lib.rs:490-500 | Joined, with the queue sent in order. |
| ClientChannel.Channel.ForceClose | rust/pondsocket-client/src/lib.rs:509-517 | Closed, with queue and waiting requests gone. |
| ClientRuns.OrderlyMeans | rust/pondsocket-client/src/lib.rs:395-435 | In an orderly record there is a new connection between two joins, and a join and its acknowledgement before a broadcast on the same connection. |
| ClientRuns.StepSound | rust/pondsocket-client/src/lib.rs:319-517 | Every step keeps the record orderly and the state in line with it. |
| ClientRuns.StepMoves | rust/pondsocket-client/src/lib.rs:395-517 | What each step sends, queues and loses: only the oldest message of a full queue, or the queue on a refusal, on closing or on a dead writer. |
| ClientRuns.WireTrace | rust/pondsocket-client/src/lib.rs:319-500 | In every run at most one join per connection, every broadcast after that connection's acknowledgement, broadcasts in the order accepted and none twice. |
| ClientRuns.Conservation | rust/pondsocket-client/src/lib.rs:333-517 | Every accepted message is on the wire, in the queue or lost for a recorded cause; the queue keeps a positive limit; each request is answered at most once and then waits no more. |
| ClientRuns.NoLimitAtZero | rust/pondsocket-client/src/lib.rs:405-409 | A message that cannot be sent makes the queue longer if and only if the limit is not reached or is 0. |
| ClientRuns.ZeroKeepsEverything | rust/pondsocket-client/src/lib.rs:190-200 | In every run with limit 0 nothing is sent, and until closing the queue holds every accepted message. |
| ClientRuns.StateGraph | rust/pondsocket-client/src/lib.rs:412-517 | Which state may follow which; closed stays closed and silent, declined can only be closed. |
| ClientRuns.AnswersComeFromServer | rust/pondsocket-client/src/lib.rs:362-487 | In every run each answer handed to a request was received with its id, the request was made by this channel, and no request gets two. |
| ClientRuns.ResponseReachesItsRequest | rust/pondsocket-client/src/lib.rs:480-487 | A response reaches the request with its id and nobody else; other messages reach subscribers only when joined. |
| ClientLaws.StateDecided | rust/pondsocket-client/src/lib.rs:319-517 | The next state, from the state and what happens alone: the whole state diagram. |
| ClientLaws.LeavingTells | rust/pondsocket-client/src/lib.rs:333-346 | Leaving puts exactly one leave with its id on the wire if the writer takes messages, nothing else, and closes the channel. |
| ClientLaws.LeavesInRuns | rust/pondsocket-client/src/lib.rs:333-346 | In every run as many leaves are sent as steps left an open channel while the writer took messages, which is one at most, and nothing is sent after it. |
| ClientLaws.JoinsSent | rust/pondsocket-client/src/lib.rs:319-331 | An explicit join is sent, with the parameters and its id, if and only if the channel is idle or stalled and the writer takes messages. |
| ClientLaws.JoinsAgain | rust/pondsocket-client/src/lib.rs:412-435 | A new connection makes a stalled or joining channel, and no other, send one join with the parameters and a new id. |
| ClientLaws.OthersSendNoJoin | rust/pondsocket-client/src/lib.rs:319-517 | No other step sends a join. |
| ClientLaws.MessageHasOneFate | rust/pondsocket-client/src/lib.rs:446-488 | Each received message has one effect: it closes, confirms, refuses, answers one request, is handed to subscribers, or is ignored. |
| ClientLaws.RefusalDeclines | rust/pondsocket-client/src/lib.rs:463-507 | A refusal of an awaited join declines the channel for the reason it carries, with queue and requests gone; any other changes neither state nor reason. |
| ClientLaws.DeclinedForAReason | rust/pondsocket-client/src/lib.rs:502-507 | In every run a declined channel has the reason of a refusal that was received. |
| ClientLaws.WaitsExactly | rust/pondsocket-client/src/lib.rs:362-393 | A request waits, if and only if, from when an open channel makes it until it is answered or given up, or the channel is refused or closed. |
| JsChannel.Channel.Acknowledge | javascript/client/src/core/channel.ts:118-133 | Accepts the answer to the request under way and sends the queue in order. |
| JsChannel.Channel.Decline | javascript/client/src/core/channel.ts:139-156 | Declines the request under way; else only reports the error, or ignores a superseded answer. |
| JsChannel.Channel.Join | javascript/client/src/core/channel.ts:161-185 | Requests at once when connected, waits for the connection otherwise. |
| JsChannel.Channel.Leave | javascript/client/src/core/channel.ts:190-215 | Closes, with time limit, request, wait and queue gone. |
| JsChannel.Channel.OnConnection | javascript/client/src/core/channel.ts:389-416 | A stalled channel requests again, a joined one stalls, a waiting join goes ahead. |
| JsChannel.Channel.Publish | javascript/client/src/core/channel.ts:436-450 | Sends, refuses or queues, giving up the oldest of a full queue. |
| JsChannel.Channel.SendJoinRequest | javascript/client/src/core/channel.ts:452-478 | Replaces the time limit and the id of the request. |
| JsChannel.Channel.OnTimeout | javascript/client/src/core/channel.ts:466-476 | A time limit declines if its request is still under way. |
| JsChannelRuns.JoinCorrelation | javascript/client/src/core/channel.ts:118-185 | In every run there is exactly one time limit for a request under way and none otherwise; a request is under way only while joining or stalled, and always then while connected; joined means connected with an empty queue. |
| JsChannelRuns.OnlyCurrentAnswers | javascript/client/src/core/channel.ts:118-156 | An answer changes the state if and only if a join is awaited and it names the request under way, or none. |
| JsChannelRuns.TimeLimitDeclines | javascript/client/src/core/channel.ts:466-476 | A time limit that fires belongs to the request under way and declines it. |
| JsChannelRuns.RepeatedOnReconnect | javascript/client/src/core/channel.ts:161-185 | A new connection brings a join request if and only if the channel is stalled or a join waited; a first join cut off stays joining. |
| JsChannelRuns.FirstJoinNotRepeated | javascript/client/src/core/channel.ts:389-403 | A run of join, loss and new connection that ends joining, connected, with only the first request sent. |
| JsChannelRuns.OnlyJoinedSends | javascript/client/src/core/channel.ts:377-450 | Broadcasts leave only a joined channel, the queue first and in order. |
| JsChannelRuns.StepSound | javascript/client/src/core/channel.ts:118-185 | Every step keeps the invariant, with the queue bounded by the limit, or by 1 when the limit is 0. |
| JsChannelRuns.AnswersInRuns | javascript/client/src/core/channel.ts:118-156 | `OnlyCurrentAnswers` in every run from a new channel. |
| JsChannelRuns.TimeLimitsInRuns | javascript/client/src/core/channel.ts:466-476 | `TimeLimitDeclines` in every run from a new channel. |
| JsChannelRuns.ReconnectsInRuns | javascript/client/src/core/channel.ts:389-416 | `RepeatedOnReconnect` in every run from a new channel. |
| JsChannelRuns.SendsInRuns | javascript/client/src/core/channel.ts:377-450 | `OnlyJoinedSends` in every run from a new channel. |
| JsChannelLaws.StateDecided | javascript/client/src/core/channel.ts:118-215 | The next state, from the state, the request under way and what happens: the whole state diagram. |
| JsChannelLaws.SendsExactly | javascript/client/src/core/channel.ts:161-215 | What each step passes on: one join with parameters and id, one leave with its id, the published message, the queue in order, or nothing. |
| JsChannelLaws.RequestDecided | javascript/client/src/core/channel.ts:452-478 | The request passed on last is under way until no join is awaited any more. |
| JsChannelLaws.WaitDecided | javascript/client/src/core/channel.ts:161-185 | A join waits if and only if it was made without a connection and none came, and the channel was not left; when the channel follows the connection. |
| JsChannelLaws.ErrorsDecided | javascript/client/src/core/channel.ts:139-156 | Which errors are reported and which is kept as the last; a time limit reports status 408. |
| JsChannelLaws.QueueKept | javascript/client/src/core/channel.ts:118-215 | Nothing but publishing and the decision about the join changes the queue. |
| JsChannelLaws.PublishDecided | javascript/client/src/core/channel.ts:436-450 | Publishing is refused if and only if the channel is declined or closed, and then changes nothing. |
| JsChannelLaws.QueueKeepsLatest | javascript/client/src/core/channel.ts:436-450 | Whatever is published before joining, the queue holds the latest messages, as many as the limit allows, in order; a limit of 0 allows one. |
| Percent.PercentRoundTrip | javascript/comnon/src/misc/route.ts:91-134 | Decoding undoes encoding for every text. |
| Percent.EncodedIsSafe | javascript/comnon/src/misc/route.ts:131 | Encoded text has no character with a meaning in an address, and is empty only for the empty text. |
| Percent.DecodeExactly | javascript/comnon/src/misc/route.ts:92 | A text is decoded to another if and only if it is one way to write it: characters as they are or the escapes of their UTF-8 form, in large or small digits; everything else is refused. |
| Percent.LeftAsItIs | javascript/comnon/src/misc/route.ts:131 | Letters, digits and nine marks are encoded as they are, and nothing else is. |
| Route.ParseSegments | javascript/comnon/src/misc/route.ts:20-69 | The loop over pieces yields the segments and keys, or the first error. |
| Route.ParsePondRoute | javascript/comnon/src/misc/route.ts:81-108 | The loop over keys fills the result as specified. |
| Route.BuildPondRoute | javascript/comnon/src/misc/route.ts:110-134 | The address, or the error of the declaration or of the first missing value. |
| RouteTrip.ValidExactly | javascript/comnon/src/misc/route.ts:20-69 | A declaration is accepted if and only if it has no `?` and its pieces read as literals, distinct names and at most one wildcard, each a whole piece. |
| RouteTrip.BuildsExactly | javascript/comnon/src/misc/route.ts:110-134 | An address is built if and only if every key has a value that is not empty, and what it is then. |
| RouteLaws.MatchSound | javascript/comnon/src/misc/route.ts:65-68 | What the backtracking pattern finds is a filling of the route. |
| RouteLaws.MatchComplete | javascript/comnon/src/misc/route.ts:65-68 | If there is a filling, the pattern finds one. |
| RouteLaws.OnlyOneFilling | javascript/comnon/src/misc/route.ts:27-68 | A route with one wildcard anywhere can be filled to a path in one way only. |
| RouteLaws.MatchIsFilling | javascript/comnon/src/misc/route.ts:65-68 | The pattern, greedy and backtracking, matches with given values if and only if they are the filling. |
| RouteTrip.RouteRoundTrip | javascript/comnon/src/misc/route.ts:81-134 | For every valid route and all non-empty values, reading the built address gives the parameters back and the wildcard with slashes collapsed, if and only if no key is `__proto__` and the wildcard has no `?` and no line end. |
| RouteTrip.ProtoNotRead | javascript/comnon/src/misc/route.ts:81-108 | The parameter `__proto__` is built into the address and not read back. |
| RouteTrip.WildcardNotRead | javascript/comnon/src/misc/route.ts:65-108 | A wildcard with `?` or any line end is built into the address and not read back. |
| RouteTrip.ReadsBack | javascript/comnon/src/misc/route.ts:81-108 | With a readable wildcard everything but `__proto__` comes back. |
| RouteTrip.QueryKept | javascript/comnon/src/misc/route.ts:81-88 | A text behind a `?` does not change the parameters, and is given back whole if and only if it has no `?`. |
| RouteTrip.BuiltWithQuery | javascript/comnon/src/misc/route.ts:81-134 | The same for every built address that can be read back. |
| RouteTrip.StrippedExactly | javascript/comnon/src/misc/route.ts:127-129 | What is written for a wildcard is its value without the slashes in front. |
| RouteErrors.NamesSpelled | javascript/comnon/src/misc/route.ts:45 | A name is a letter or underscore, followed by letters, underscores and digits. |
| RouteErrors.FirstError | javascript/comnon/src/misc/route.ts:20-69 | A declaration is refused, if and only if, for a `?` or else for the first piece that cannot be read after those before it, with the error that says what is wrong with it. |
| RouteErrors.FirstMissingValue | javascript/comnon/src/misc/route.ts:110-134 | An address is refused, if and only if, for the first key in the order of the route whose value is missing or empty. |
| GoChannel.ChannelMembership.Watch | go/pondsocket/membership.go:36-41 | Both callbacks wait, or start at once if what they wait for has happened. |
| GoChannel.ChannelMembership.Close | go/pondsocket/membership.go:43-52 | Callbacks that have not started are stopped, and the first cause of the end stays. |
| GoChannel.Channel.ParentEnds | go/pondsocket/membership.go:25-34 | When the context around the channel ends, the channel is done and every membership is cancelled. |
| GoChannel.Channel.RunConnectionCallback | go/pondsocket/membership.go:36-39 | The callback of a lost connection cancels its own membership and no other. |
| GoChannel.Channel.AddUser | go/pondsocket/channel.go:579-630 | Refuses a closed channel, an active member and a dead connection; clears a dead member away first. |
| GoChannel.Channel.RemoveUser | go/pondsocket/channel.go:114-137 | Removes a member here, or says why not. |
| GoChannel.Channel.RemoveUserLocal | go/pondsocket/channel.go:143-181 | All entries of the user go, the leave is announced, an empty channel is to be destroyed. |
| GoChannel.Channel.ReleaseMembership | go/pondsocket/channel.go:183-190 | The membership is closed and taken out. |
| GoChannel.Channel.RemoveExpiredMembership | go/pondsocket/channel.go:192-206 | A late cleanup removes its own membership or nothing. |
| GoChannel.Channel.Close | go/pondsocket/channel.go:519-577 | All contexts end, and the loop over users empties every store. |
| GoChannel.Channel.Destroy | go/pondsocket/channel.go:164-175 | The destruction started by the last leave closes the channel. |
| MembershipRuns.StepSound | go/pondsocket/channel.go:143-205 | Every step keeps the invariant of stores, memberships, callbacks and leaves. |
| MembershipRuns.MembershipsAccounted | go/pondsocket/channel.go:519-630 | In every interleaving the three stores have the same keys, and each join is in the map, announced once to have left, or ended by closing, never two of these. |
| MembershipRuns.NoGhostMembers | go/pondsocket/membership.go:36-74 | When no callback is on its way, every member's connection is alive and the channel is open. |
| MembershipRuns.CleanupHitsOwnMembership | go/pondsocket/channel.go:192-206 | A cleanup removes its own membership, which is over, and never a later one of the same user. |
| MembershipRuns.ActiveMembersStay | go/pondsocket/channel.go:143-205 | Nothing but explicit removal or closing ends the membership of a live member. |
| MembershipRuns.EmptiedIsDestroyed | go/pondsocket/channel.go:164-175 | A step other than closing empties a channel without starting its destruction if and only if it is a join by its only member, whose connection is lost, over a lost connection; any other emptying step starts exactly one. |
| MembershipRuns.EmptiedButNotDestroyed | go/pondsocket/channel.go:579-600 | A run that ends with an empty, open channel and nothing on its way to destroy it. |
| MembershipRuns.CleanupHitsOwnInRuns | go/pondsocket/channel.go:192-206 | `CleanupHitsOwnMembership` in every run. |
| MembershipRuns.ActiveMembersStayInRuns | go/pondsocket/channel.go:143-205 | `ActiveMembersStay` in every run. |
| MembershipRuns.EmptiedIsDestroyedInRuns | go/pondsocket/channel.go:164-175 | `EmptiedIsDestroyed` in every run. |
| MembershipRuns.LateDestructionEndsNewMember | go/pondsocket/channel.go:164-175 | A run in which a late destruction ends a member who joined after the last one left, unannounced. |
| MembershipRuns.ClosingEndsUnannounced | go/pondsocket/channel.go:519-577 | Closing and destruction end every current membership without announcing a leave. |
| MembershipLaws.JoinDecides | go/pondsocket/channel.go:579-630 | Which joins are refused and as what, if and only if. |
| MembershipLaws.JoinedEntries | go/pondsocket/channel.go:579-630 | After a successful join the user has exactly the given assigns and connection and a new membership without a cause to end, and everybody else what they had. |
| MembershipLaws.JoinAnnounces | go/pondsocket/channel.go:579-600 | A join over the remains of an ended membership first announces its leave, with its cause; no other join announces anything. |
| MembershipLaws.RemovalDecides | go/pondsocket/channel.go:114-181 | Which removals are refused, if and only if; else the user is out of every store, everybody else stays, and the leave is announced with the reason given. |
| MembershipLaws.CleanupDecides | go/pondsocket/channel.go:192-206 | A cleanup of a current membership takes its user out and announces the cause of the end; any other changes nothing. |
| MembershipLaws.CauseDecided | go/pondsocket/membership.go:25-74 | The first cause of the end of a membership stays, and which step gives which. |
| MembershipLaws.OverAndLost | go/pondsocket/channel.go:519-577 | The channel is over from when its context ends or it is closed or destroyed on, and never before. |
| MembershipLaws.DestroysCounted | go/pondsocket/channel.go:164-175 | A destruction is started exactly by a removal or cleanup that takes out the last member, if there is a handler. |
| MembershipLaws.NothingWaitsForTheEnded | go/pondsocket/membership.go:43-52 | In every run no callback waits for a membership that is not in the map any more. |
| MembershipLaws.CallbackMoves | go/pondsocket/membership.go:36-52 | A waiting callback may be started or stopped; a started one runs, once, and cannot be stopped. |
| MembershipLaws.SetLate | go/pondsocket/membership.go:36-41 | A callback starts at once if and only if what it waits for has happened before it is set. |

## Left out

- Sockets, server-sent events, Redis, HTTP frameworks, adapters, decorators, metrics, type-level schemas: I/O and wrappers.
- Handlers and hooks of the application: they show only through the operations they call.
- Interleaving inside one handler: each handler is one step, `is_idle` included. With its reads split, a join that adds its user and ends in between would defeat the lobby's teardown claim.
- JSON text and UTF-8 of node messages: messages start as values; numbers are integers.
- Delivery to clients after the dispatch queue, its concurrency limit and timeouts, presence snapshots, and system messages to single users (`send_system`, `send_direct`).
- Leave handlers and metrics inside `remove_user`, and an early return there when publishing fails.
- Errors of the pub/sub while channels start and close, and redelivery: `PubSubRuns` has neither.
- `Lobby::close`, panics and cancelled tasks in the lobby.
- Assigns convergence after a node was dropped as stale or crashed without closing (`Agreement.DroppedAgreesWhenEmpty` says what a drop does), or when updates are issued away from the home (what happens then is `Convergence.RemoteAssignLeavesIssuerBehind`); convergence of presence over queues between nodes (`PresenceRuns.RunMirrored` covers one node that handles in order what another publishes).
- Convergence.Converged: what one node publishes is handled in that order. The local pub/sub starts a task for each message, so the runtime may let one overtake another; `Overtaken` and `Moves` say what happens to users then, and assigns that overtake each other are not modelled.
- Users with more than one home in the partition and convergence theorems; `Moves` says which steps break the partition then, and convergence for them is not stated.
- Endpoint registrations: only the acquire and finish bracket around a join is modelled, in `LobbyRuns`.
- TokenBucket.ExactTokenBucket: real numbers instead of floating point, and a clock that does not go back.
- TokenBucket.TokenBucketRateLimiter.Allow: the clock is a parameter.
- PathParser.Decode: text is ASCII; on other text the source slices by byte and pushes bytes as characters.
- PathTrip.PathRoundTrip: values are free of `/` and `?`, as a path piece has to be.
- Percent.PercentRoundTrip: texts with lone surrogates, for which the source throws, are not texts here.
- Route.ParsePondRoute: the query is returned as text; decoding it is the work of the runtime's URLSearchParams.
- RouteLaws.MatchIsFilling: escaping literals for the regular expression is taken to make them match themselves.
- ClientRuns.WireTrace: a change of the connection and the channel's reaction are one step, and connection attempts do not overlap. An attempt that fails is one that never opens: the state stays at connecting until `disconnect`.
- ClientChannel.Channel.HandleEvent: presence messages only replace the presence list and are left out; other channels of the same client share nothing but the connection.
- JsChannelRuns.StepSound: answers arrive over an open connection, observers do not call back into the channel, and a channel is not joined again after it was left, which the source does not prevent.
- JsChannelSpec.State: the messages handed to subscribers, presence and responses to single requests.
- ChannelReplica.Channel.Start: only the state and the published request; the pub/sub subscriptions are in `PubSubRuns`, the dispatch and liveness tasks show as steps.
- ChannelReplica.Channel.Close: the state only; giving up the subscriptions is in `PubSubRuns`, and a closed channel takes no further step.
- ChannelReplica.Channel.RemoveUser: without the leave handler and the return on a publish error.
- ChannelReplica.Channel.TrackPresence: without the snapshot for local clients, which no protocol message carries.
- ChannelReplica.Channel.UpdatePresence: without that snapshot.
- ChannelReplica.Channel.UntrackPresence: without that snapshot.
- ChannelReplica.Channel.EvictUser: without the notice to the user, a system message to one client.
- ChannelReplica.Channel.DispatchEvent: without the presence snapshot for local clients.
- ChannelReplica.Channel.HandleRemotePresence: without that snapshot.
- ChannelReplica.Channel.HandleRemoteUserCommand: without the notice to an evicted user.
- GoChannel.Channel.RemoveUser: without the command that asks another node to remove the user.
- GoChannel.Channel.RemoveUserLocal: without untracking presence and publishing the leave to other nodes.
- GoChannel.Channel.Close: without closing connections, presence and unsubscribing.
- GoChannel.Channel.Destroy: without the callback of the application.
- Presence, broadcasting and the distributed part of the Go channel: only membership is modelled; `GoChannel` takes the runtime's callbacks as steps that run at any time after they have started.
