/** The server's two registries: the services it dispatches to, kept in an
    intrusive list that only grows at its front, and the channel table, a
    caller-provided array whose size never changes. */
module Servers {
  import opened Base
  import opened Channels

  /** A registered service; its identity is the object itself, as an element
      of an intrusive list is. */
  class Service {
    const id: u32

    constructor (id: u32)
      ensures this.id == id
    {
      this.id := id;
    }
  }

  /** The first slot of table whose channel id is id, if there is one. */
  function FirstSlotWithId(table: seq<Channel>, id: u32): (r: Option<nat>)
    ensures r.Some? ==> r.value < |table| && table[r.value].id == id
    ensures r.Some? ==> forall j :: 0 <= j < r.value ==> table[j].id != id
    ensures r.None? <==> forall j :: 0 <= j < |table| ==> table[j].id != id
  {
    if |table| == 0 then None
    else if table[0].id == id then Some(0)
    else match FirstSlotWithId(table[1..], id)
      case None => None
      case Some(k) => Some(k + 1)
  }

  class Server {
    /** The channel table: the caller's storage, never resized. */
    const channels: array<Channel>
    /** Registered services, the most recently registered first. */
    var services: seq<Service>

    /** The server uses the caller's channel array as its table. */
    constructor (channels: array<Channel>)
      ensures this.channels == channels && ChannelCount() == channels.Length
      ensures services == []
    {
      this.channels := channels;
      services := [];
    }

    /** RegisterService: push-front onto the service list. Every service
        registered before stays, in the same order, after the new one. */
    method RegisterService(service: Service)
      modifies this`services
      ensures services == [service] + old(services)
      ensures services[0] == service && services[1..] == old(services)
    {
      services := [service] + services;
    }

    /** The number of slots in the channel table. */
    function ChannelCount(): (n: nat)
      ensures n == channels.Length
    {
      channels.Length
    }

    /** FindChannel: the first slot of the table bound to channel id, or
        none. */
    method FindChannel(id: u32) returns (slot: Option<nat>)
      ensures slot == FirstSlotWithId(channels[..], id)
      ensures slot.Some? ==> slot.value < channels.Length && channels[slot.value].id == id
      ensures slot.None? <==> forall j :: 0 <= j < channels.Length ==> channels[j].id != id
    {
      var i := 0;
      while i < channels.Length
        invariant 0 <= i <= channels.Length
        invariant forall j :: 0 <= j < i ==> channels[j].id != id
      {
        if channels[i].id == id {
          FirstSlotIsLeast(channels[..], id, i);
          return Some(i);
        }
        i := i + 1;
      }
      return None;
    }

    /** AssignChannel: binds the first unassigned slot to channel id and
        output; with no free slot, nothing changes. The table is a const
        array, so no operation can change ChannelCount. */
    method AssignChannel(id: u32, output: ChannelOutput) returns (slot: Option<nat>)
      modifies channels
      ensures slot == FirstSlotWithId(old(channels[..]), UnassignedChannelId)
      ensures slot.None? ==> channels[..] == old(channels[..])
      ensures slot.Some? ==>
        slot.value < channels.Length &&
        channels[..] == old(channels[..])[slot.value := Channel(id, output)]
    {
      slot := FindChannel(UnassignedChannelId);
      if slot.Some? {
        channels[slot.value] := Channel(id, output);
      }
    }
  }

  /** A slot i that holds id, with no earlier slot holding it, is the one
      FirstSlotWithId finds. */
  lemma {:induction false} FirstSlotIsLeast(table: seq<Channel>, id: u32, i: nat)
    requires i < |table| && table[i].id == id
    requires forall j :: 0 <= j < i ==> table[j].id != id
    ensures FirstSlotWithId(table, id) == Some(i)
  {
    if i > 0 {
      FirstSlotIsLeast(table[1..], id, i - 1);
    }
  }
}
