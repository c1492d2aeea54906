/** Directions and rooms: a room has a description, an on-enter hook and an
    ordered table from direction to neighbouring room, updated in place. */
module Rooms {
  import opened Dicts
  import opened Exceptions

  datatype Direction = North | South | West | East

  /** The reverse compass direction; never the direction itself. */
  function Opposite(d: Direction): (r: Direction)
    ensures r != d
  {
    match d
    case North => South
    case South => North
    case West => East
    case East => West
  }

  lemma OppositeInvolution(d: Direction)
    ensures Opposite(Opposite(d)) == d
  {
  }

  /** The user-facing name of a direction (`str(direction)`). */
  function Alias(d: Direction): (r: string)
    ensures r != "" && ' ' !in r
  {
    match d
    case North => "up"
    case South => "down"
    case East => "right"
    case West => "left"
  }

  /** The four aliases are pairwise different. */
  lemma AliasInjective(d: Direction, e: Direction)
    ensures Alias(d) == Alias(e) ==> d == e
  {
  }

  /** The aliases of `ds`, in the same order. */
  function Aliases(ds: seq<Direction>): (r: seq<string>)
    ensures |r| == |ds|
    ensures forall i | 0 <= i < |ds| :: r[i] == Alias(ds[i])
  {
    seq(|ds|, i requires 0 <= i < |ds| => Alias(ds[i]))
  }

  /** An alias is listed exactly when its direction is, and no alias is
      listed twice when no direction is. */
  lemma AliasesExact(ds: seq<Direction>)
    ensures forall d :: Alias(d) in Aliases(ds) <==> d in ds
    ensures Distinct(ds) ==> Distinct(Aliases(ds))
  {
    var r := Aliases(ds);
    forall d | Alias(d) in r ensures d in ds {
      var i :| 0 <= i < |r| && r[i] == Alias(d);
      AliasInjective(d, ds[i]);
    }
    forall i, j | 0 <= i < j < |r| && Distinct(ds) ensures r[i] != r[j] {
      AliasInjective(ds[i], ds[j]);
    }
  }

  /** What entering a room does to the player: nothing for a plain room,
      one item added to the bag for a room that hands one out. */
  datatype EnterHook = NoEffect | AddToBag(item: string)

  /** The neighbours of a room, by direction. */
  type Neighbors = d: Dict<Direction, Room> | d.Valid() witness Dict([], map[])

  class Room {
    const description: string
    const hook: EnterHook
    var adjacent: Neighbors

    /** A new room has its description and no neighbours. */
    constructor(description: string, hook: EnterHook)
      ensures this.description == description && this.hook == hook
      ensures adjacent.keys == []
      ensures forall d :: GetNeighbor(d) == None
    {
      this.description := description;
      this.hook := hook;
      adjacent := Empty();
    }

    /** The neighbour in `direction`, or None. */
    function GetNeighbor(direction: Direction): (r: Option<Room>)
      reads this
      ensures r.Some? <==> direction in adjacent.entries
      ensures r.Some? ==> r.value == adjacent.entries[direction]
    {
      adjacent.Get(direction)
    }

    /** Sets (or overwrites) the neighbour in `direction`; the other
        directions keep their neighbours. */
    method AddNeighbor(direction: Direction, room: Room)
      modifies this
      ensures adjacent == old(adjacent).Put(direction, room)
      ensures GetNeighbor(direction) == Some(room)
      ensures forall d | d != direction :: GetNeighbor(d) == old(GetNeighbor(d))
    {
      adjacent := adjacent.Put(direction, room);
    }

    /** Deletes the neighbour in `direction`; KeyError, with nothing
        changed, when there is none. */
    method RemoveNeighbor(direction: Direction) returns (r: Result<()>)
      modifies this
      ensures old(GetNeighbor(direction)).None? ==> r == Raise(KeyError) && adjacent == old(adjacent)
      ensures old(GetNeighbor(direction)).Some? ==> r == Ok(()) && adjacent == old(adjacent).Remove(direction)
      ensures GetNeighbor(direction) == None
      ensures forall d | d != direction :: GetNeighbor(d) == old(GetNeighbor(d))
    {
      if direction !in adjacent.entries {
        return Raise(KeyError);
      }
      adjacent := adjacent.Remove(direction);
      r := Ok(());
    }

    /** The aliases of the connected directions, in insertion order: exactly
        one entry per connected direction. */
    function NeighboringDirections(): (r: seq<string>)
      reads this
      ensures |r| == |adjacent.keys|
      ensures forall i | 0 <= i < |r| :: r[i] == Alias(adjacent.keys[i])
      ensures forall d :: Alias(d) in r <==> GetNeighbor(d).Some?
      ensures Distinct(r)
    {
      AliasesExact(adjacent.keys);
      Aliases(adjacent.keys)
    }
  }
}
