/**
 * The part of the LiveKit server the portal talks to, as abstract state:
 * rooms with their metadata, the agent dispatches of each room (with the room
 * metadata each running job observed when it started) and the identities of
 * the participants. Which calls raise is fixed by the environment (`faults`).
 */
module RoomService {
  import opened Wrappers

  /** An agent dispatch: its id, the agent it starts, and the room metadata each of its jobs observed. */
  datatype Dispatch = Dispatch(id: nat, agentName: string, jobs: seq<string>)

  datatype Room = Room(metadata: string, dispatches: seq<Dispatch>, participants: seq<string>)

  /** The server: rooms by name, and the id the next dispatch receives. */
  datatype LiveKit = LiveKit(rooms: map<string, Room>, nextId: nat)

  /** A room-service call; one listed in `faults` raises. */
  datatype Call =
    | ListRooms | UpdateRoomMetadata | ListDispatch | ListParticipants
    | DeleteDispatch(id: nat) | CreateDispatch

  /** The dispatches of `ds` started for `agent`, in order. */
  function AgentDispatches(ds: seq<Dispatch>, agent: string): (r: seq<Dispatch>)
    ensures forall d :: d in r <==> d in ds && d.agentName == agent
    ensures |r| <= |ds|
  {
    if ds == [] then []
    else if ds[0].agentName == agent then [ds[0]] + AgentDispatches(ds[1..], agent)
    else AgentDispatches(ds[1..], agent)
  }

  /** `ds` without the dispatch `id`, the others in order. */
  function Without(ds: seq<Dispatch>, id: nat): (r: seq<Dispatch>)
    ensures forall d :: d in r <==> d in ds && d.id != id
    ensures |r| <= |ds|
  {
    if ds == [] then []
    else if ds[0].id == id then Without(ds[1..], id)
    else [ds[0]] + Without(ds[1..], id)
  }

  /** The ids of `ds`, in order. */
  function Ids(ds: seq<Dispatch>): (r: seq<nat>)
    ensures |r| == |ds| && forall i :: 0 <= i < |ds| ==> r[i] == ds[i].id
  {
    if ds == [] then [] else [ds[0].id] + Ids(ds[1..])
  }

  /** The server after `update_room_metadata` on an existing room. */
  function SetMetadata(lk: LiveKit, room: string, md: string): (r: LiveKit)
    requires room in lk.rooms
    ensures r.nextId == lk.nextId && r.rooms.Keys == lk.rooms.Keys
    ensures r.rooms[room].metadata == md
    ensures r.rooms[room].dispatches == lk.rooms[room].dispatches
    ensures r.rooms[room].participants == lk.rooms[room].participants
    ensures forall o :: o in lk.rooms && o != room ==> r.rooms[o] == lk.rooms[o]
  {
    lk.(rooms := lk.rooms[room := lk.rooms[room].(metadata := md)])
  }

  /** The server after `delete_dispatch(id, room)`. */
  function Delete(lk: LiveKit, room: string, id: nat): (r: LiveKit)
    requires room in lk.rooms
    ensures r.nextId == lk.nextId && r.rooms.Keys == lk.rooms.Keys
    ensures r.rooms[room].dispatches == Without(lk.rooms[room].dispatches, id)
    ensures r.rooms[room].metadata == lk.rooms[room].metadata
    ensures r.rooms[room].participants == lk.rooms[room].participants
    ensures forall o :: o in lk.rooms && o != room ==> r.rooms[o] == lk.rooms[o]
  {
    var rm := lk.rooms[room];
    lk.(rooms := lk.rooms[room := rm.(dispatches := Without(rm.dispatches, id))])
  }

  /** The server after `create_dispatch`: a new dispatch with no job yet, under a fresh id. */
  function Create(lk: LiveKit, room: string, agent: string): (r: LiveKit)
    requires room in lk.rooms
    ensures r.nextId == lk.nextId + 1 && r.rooms.Keys == lk.rooms.Keys
    ensures r.rooms[room].dispatches == lk.rooms[room].dispatches + [Dispatch(lk.nextId, agent, [])]
    ensures r.rooms[room].metadata == lk.rooms[room].metadata
    ensures r.rooms[room].participants == lk.rooms[room].participants
    ensures forall o :: o in lk.rooms && o != room ==> r.rooms[o] == lk.rooms[o]
  {
    var rm := lk.rooms[room];
    LiveKit(lk.rooms[room := rm.(dispatches := rm.dispatches + [Dispatch(lk.nextId, agent, [])])], lk.nextId + 1)
  }

  /** The LiveKit room service as the portal sees it. */
  class RoomServer {
    var rooms: map<string, Room>
    var nextId: nat
    const faults: set<Call>

    function State(): LiveKit
      reads this
    {
      LiveKit(rooms, nextId)
    }

    constructor (lk: LiveKit, faults: set<Call>)
      ensures State() == lk && this.faults == faults
    {
      rooms := lk.rooms;
      nextId := lk.nextId;
      this.faults := faults;
    }

    /** `list_rooms(names=[room])`: whether the room exists, or `None` when the call raises. */
    method RoomExists(room: string) returns (r: Option<bool>)
      ensures r == if ListRooms in faults then None else Some(room in rooms)
    {
      if ListRooms in faults {
        r := None;
      } else {
        r := Some(room in rooms);
      }
    }

    /** `update_room_metadata`: false when the call raises (it does for a missing room). */
    method UpdateMetadata(room: string, md: string) returns (ok: bool)
      modifies this
      ensures ok == (UpdateRoomMetadata !in faults && room in old(rooms))
      ensures ok ==> State() == SetMetadata(old(State()), room, md)
      ensures !ok ==> State() == old(State())
    {
      ok := UpdateRoomMetadata !in faults && room in rooms;
      if ok {
        rooms := rooms[room := rooms[room].(metadata := md)];
      }
    }

    /** `list_dispatch(room_name=room)`. */
    method ListDispatches(room: string) returns (r: Option<seq<Dispatch>>)
      ensures r == if ListDispatch in faults then None
        else Some(if room in rooms then rooms[room].dispatches else [])
    {
      if ListDispatch in faults {
        r := None;
      } else if room in rooms {
        r := Some(rooms[room].dispatches);
      } else {
        r := Some([]);
      }
    }

    /** `list_participants(room)`: the identities. */
    method Participants(room: string) returns (r: Option<seq<string>>)
      ensures r == if ListParticipants in faults then None
        else Some(if room in rooms then rooms[room].participants else [])
    {
      if ListParticipants in faults {
        r := None;
      } else if room in rooms {
        r := Some(rooms[room].participants);
      } else {
        r := Some([]);
      }
    }

    /** `delete_dispatch(id, room)`. */
    method DeleteDispatchCall(id: nat, room: string) returns (ok: bool)
      modifies this
      ensures ok == (DeleteDispatch(id) !in faults && room in old(rooms))
      ensures ok ==> State() == Delete(old(State()), room, id)
      ensures !ok ==> State() == old(State())
    {
      ok := DeleteDispatch(id) !in faults && room in rooms;
      if ok {
        rooms := rooms[room := rooms[room].(dispatches := Without(rooms[room].dispatches, id))];
      }
    }

    /** `create_dispatch(agent_name=agent, room=room)`. */
    method CreateDispatchCall(agent: string, room: string) returns (ok: bool)
      modifies this
      ensures ok == (CreateDispatch !in faults && room in old(rooms))
      ensures ok ==> State() == Create(old(State()), room, agent)
      ensures !ok ==> State() == old(State())
    {
      ok := CreateDispatch !in faults && room in rooms;
      if ok {
        rooms := rooms[room := rooms[room].(dispatches := rooms[room].dispatches + [Dispatch(nextId, agent, [])])];
        nextId := nextId + 1;
      }
    }
  }
}
