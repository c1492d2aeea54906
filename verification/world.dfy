/** The world: a registry from room name to room, which creates every room
    and wires symmetric connections between them. */
module Worlds {
  import opened Dicts
  import opened Exceptions
  import opened Rooms

  class World {
    var rooms: map<string, Room>

    /** Every room links only to rooms of this world. */
    ghost predicate Valid()
      reads this, rooms.Values
    {
      forall n {:trigger rooms[n].adjacent} | n in rooms :: rooms[n].adjacent.entries.Values <= rooms.Values
    }

    /** Following an exit never leaves a valid world. */
    lemma ExitInside(r: Room, d: Direction)
      requires Valid() && r in rooms.Values && r.GetNeighbor(d).Some?
      ensures r.GetNeighbor(d).value in rooms.Values
    {
      var n :| n in rooms && rooms[n] == r;
      assert r.adjacent.entries[d] in r.adjacent.entries.Values;
    }

    constructor()
      ensures Valid() && rooms == map[]
    {
      rooms := map[];
    }

    /** Creates a room with `description` and `hook` under `name`;
        RoomAlreadyExists, with the registry unchanged, for a known name. */
    method AddRoom(name: string, description: string, hook: EnterHook) returns (r: Result<()>)
      requires Valid()
      modifies this
      ensures Valid()
      ensures name in old(rooms) ==>
        r == Raise(RoomAlreadyExists("Room " + name + " already exists.")) && rooms == old(rooms)
      ensures name !in old(rooms) ==>
        && r == Ok(())
        && name in rooms && rooms == old(rooms)[name := rooms[name]]
        && fresh(rooms[name])
        && rooms[name].description == description
        && rooms[name].hook == hook
        && rooms[name].adjacent == Empty()
    {
      if name in rooms {
        return Raise(RoomAlreadyExists("Room " + name + " already exists."));
      }
      var room := new Room(description, hook);
      ghost var before := rooms;
      rooms := rooms[name := room];
      assert forall x | x in before.Values :: x in rooms.Values by {
        forall x | x in before.Values ensures x in rooms.Values {
          var n :| n in before && before[n] == x;
          assert rooms[n] == x;
        }
      }
      r := Ok(());
    }

    /** The room registered under `name`; RoomDoesNotExist otherwise. */
    function GetRoom(name: string): (r: Result<Room>)
      reads this
      ensures r.Ok? <==> name in rooms
      ensures r.Ok? ==> r.value == rooms[name]
      ensures r.Raise? ==> r.exc == RoomDoesNotExist("Room " + name + " does not exist.")
    {
      if name in rooms then Ok(rooms[name])
      else Raise(RoomDoesNotExist("Room " + name + " does not exist."))
    }

    /** Links `name1` to `name2` in `direction` and `name2` back to `name1`
        in the opposite direction. Both names are looked up before anything
        is written, so an unknown name changes nothing. */
    method ConnectRooms(name1: string, name2: string, direction: Direction) returns (r: Result<()>)
      requires Valid()
      modifies rooms.Values
      ensures Valid()
      ensures name1 !in rooms ==> r == Raise(RoomDoesNotExist("Room " + name1 + " does not exist."))
      ensures name1 in rooms && name2 !in rooms ==>
        r == Raise(RoomDoesNotExist("Room " + name2 + " does not exist."))
      ensures forall room | room in rooms.Values ::
        (name1 in rooms && name2 in rooms && (room == rooms[name1] || room == rooms[name2]))
        || room.adjacent == old(room.adjacent)
      ensures name1 in rooms && name2 in rooms ==>
        && r == Ok(())
        && rooms[name1].GetNeighbor(direction) == Some(rooms[name2])
        && rooms[name2].GetNeighbor(Opposite(direction)) == Some(rooms[name1])
        && (rooms[name1] != rooms[name2] ==>
              && rooms[name1].adjacent == old(rooms[name1].adjacent).Put(direction, rooms[name2])
              && rooms[name2].adjacent == old(rooms[name2].adjacent).Put(Opposite(direction), rooms[name1]))
        && (rooms[name1] == rooms[name2] ==>
              rooms[name1].adjacent
              == old(rooms[name1].adjacent).Put(direction, rooms[name1]).Put(Opposite(direction), rooms[name1]))
    {
      var found1 := GetRoom(name1);
      if found1.Raise? {
        return Raise(found1.exc);
      }
      var found2 := GetRoom(name2);
      if found2.Raise? {
        return Raise(found2.exc);
      }
      var room1, room2 := found1.value, found2.value;
      room1.AddNeighbor(direction, room2);
      room2.AddNeighbor(Opposite(direction), room1);
      r := Ok(());
    }
  }
}
