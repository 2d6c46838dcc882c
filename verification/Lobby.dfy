/** The lobby as the server keeps it: a map from names to channels, created on demand and taken out when idle.
    A shared reference to a channel is its index in `arena`, where every channel object ever made stays. */
module LobbyMap {
  import opened ChannelSpec
  import opened ChannelReplica
  import opened LobbySpec

  class ChannelLobby {
    const nodeId: string
    const distributed: bool
    var channels: map<string, nat>
    var arena: seq<Channel>

    ghost predicate Valid()
      reads this, arena
    {
      && (forall i, j :: 0 <= i < j < |arena| ==> arena[i] != arena[j])
      && (forall name <- channels :: channels[name] < |arena| && arena[channels[name]].name == name)
    }

    ghost function Items(): seq<Item>
      reads this, arena
    {
      seq(|arena|, i requires 0 <= i < |arena| reads this, arena => Item(arena[i].Model(), arena[i].inFlightJoins))
    }

    ghost function Value(): Lobby
      reads this, arena
    {
      Lobby(channels, Items(), nodeId, distributed)
    }

    constructor (nodeId: string, distributed: bool)
      ensures Valid() && Value() == Lobby(map[], [], nodeId, distributed)
    {
      this.nodeId, this.distributed := nodeId, distributed;
      channels, arena := map[], [];
    }

    method GetOrCreateLocked(name: string, requestId: string) returns (o: nat)
      requires Valid()
      modifies this
      ensures Valid() && o < |arena| && old(arena) <= arena
      ensures forall c <- old(arena) :: unchanged(c)
      ensures fresh(set c | c in arena && c !in old(arena))
      ensures (Value(), o) == GetOrCreate(old(Value()), name)
    {
      if name in channels {
        return channels[name];
      }
      var c := new Channel(name, nodeId, distributed);
      c.Start(requestId);
      o := |arena|;
      arena := arena + [c];
      channels := channels[name := o];
      assert Items() == old(Items()) + [Item(c.Model(), 0)];
    }

    /** Only the object `o` changed. */
    twostate lemma OneChanged(o: nat)
      requires old(Valid()) && Valid() && arena == old(arena) && channels == old(channels) && o < |arena|
      requires forall i :: 0 <= i < |arena| && i != o ==> unchanged(arena[i])
      ensures Value() == old(Value()).(items := old(Items())[o := Item(arena[o].Model(), arena[o].inFlightJoins)])
    {}

    method AcquireForJoin(name: string, requestId: string) returns (o: nat)
      requires Valid()
      modifies this, arena
      ensures Valid() && o < |arena| && old(arena) <= arena
      ensures (Value(), o) == LobbySpec.AcquireForJoin(old(Value()), name)
    {
      o := GetOrCreateLocked(name, requestId);
      label found:
      arena[o].BeginJoin();
      OneChanged@found(o);
    }

    /** `finish_join` up to its idle check, which is a step of its own. */
    method EndJoin(o: nat)
      requires Valid() && o < |arena| && arena[o].inFlightJoins > 0
      modifies arena
      ensures Valid() && arena == old(arena) && channels == old(channels)
      ensures Value() == LobbySpec.EndJoin(old(Value()), o)
    {
      arena[o].EndJoin();
      OneChanged(o);
    }

    /** The locked part of `remove_channel_if_idle`: takes the channel out of the map if it is idle. */
    method RemoveIfIdle(name: string) returns (removed: bool, o: nat)
      requires Valid()
      modifies this`channels
      ensures Valid() && removed == Removes(old(Value()), name)
      ensures removed ==> name in old(channels) && o == old(channels)[name] && o < |arena|
      ensures Value() == LobbySpec.RemoveIfIdle(old(Value()), name)
    {
      if name !in channels { return false, 0; }
      o := channels[name];
      removed := arena[o].IsIdle();
      if removed {
        channels := channels - {name};
      }
    }

    /** The part of `remove_channel_if_idle` after the lock is given back. */
    method CloseRemoved(o: nat)
      requires Valid() && o < |arena|
      modifies arena
      ensures Valid() && arena == old(arena) && channels == old(channels)
      ensures Value() == CloseItem(old(Value()), o)
    {
      arena[o].Close();
      OneChanged(o);
    }

    method RemoveChannelIfIdle(name: string)
      requires Valid()
      modifies this`channels, arena
      ensures Valid() && arena == old(arena)
      ensures Value() == RemoveChannel(old(Value()), name)
    {
      var removed, o := RemoveIfIdle(name);
      if removed { CloseRemoved(o); }
    }

    method FinishJoin(o: nat)
      requires Valid() && o < |arena| && arena[o].inFlightJoins > 0
      modifies this`channels, arena
      ensures Valid() && arena == old(arena)
      ensures Value() == RemoveChannel(LobbySpec.EndJoin(old(Value()), o), arena[o].name)
    {
      EndJoin(o);
      RemoveChannelIfIdle(arena[o].name);
    }
  }
}
