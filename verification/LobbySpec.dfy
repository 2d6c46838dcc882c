/** A lobby: the channels of one pattern by name. Channel objects are numbered in the order they are made, so
    that holding a channel can be told from finding it under its name again. */
module LobbySpec {
  import opened ChannelSpec

  /** A channel object: its state and the number of joins in flight. */
  datatype Item = Item(state: State, inFlight: nat)

  datatype Lobby = Lobby(channels: map<string, nat>, items: seq<Item>, nodeId: string, distributed: bool)

  predicate Idle(item: Item) {
    item.inFlight == 0 && NoUsersAnywhere(item.state)
  }

  function NewItem(l: Lobby, name: string): Item {
    Item(Start(Fresh(name, l.nodeId, l.distributed)), 0)
  }

  /** `get_or_create_locked`: the lobby afterwards and the object found or made. */
  function GetOrCreate(l: Lobby, name: string): (Lobby, nat) {
    if name in l.channels then (l, l.channels[name])
    else (l.(channels := l.channels[name := |l.items|], items := l.items + [NewItem(l, name)]), |l.items|)
  }

  function WithInFlight(l: Lobby, o: nat, inFlight: nat): Lobby
    requires o < |l.items|
  {
    l.(items := l.items[o := l.items[o].(inFlight := inFlight)])
  }

  function AcquireForJoin(l: Lobby, name: string): (Lobby, nat)
    requires WellFormed(l)
  {
    var (l1, o) := GetOrCreate(l, name);
    (WithInFlight(l1, o, l1.items[o].inFlight + 1), o)
  }

  /** Names refer to objects made here, under the name they carry. */
  predicate WellFormed(l: Lobby) {
    forall name <- l.channels :: l.channels[name] < |l.items| && l.items[l.channels[name]].state.name == name
  }

  function EndJoin(l: Lobby, o: nat): Lobby
    requires o < |l.items| && l.items[o].inFlight > 0
  {
    WithInFlight(l, o, l.items[o].inFlight - 1)
  }

  /** The object that `remove_channel_if_idle` takes out of the map, if it does. */
  predicate Removes(l: Lobby, name: string)
    requires WellFormed(l)
  {
    name in l.channels && Idle(l.items[l.channels[name]])
  }

  function RemoveIfIdle(l: Lobby, name: string): Lobby
    requires WellFormed(l)
  {
    if Removes(l, name) then l.(channels := l.channels - {name}) else l
  }

  function CloseItem(l: Lobby, o: nat): Lobby
    requires o < |l.items|
  {
    l.(items := l.items[o := l.items[o].(state := Close(l.items[o].state))])
  }

  /** `remove_channel_if_idle` run without interruption. */
  function RemoveChannel(l: Lobby, name: string): Lobby
    requires WellFormed(l)
  {
    if Removes(l, name) then CloseItem(RemoveIfIdle(l, name), l.channels[name]) else l
  }
}
