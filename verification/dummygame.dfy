/** The dummy game: a lecture theater with a pub to the north and
    classroom1 to the east, and a player who wins on reaching classroom1. */
module DummyGame {
  import opened Dicts
  import opened Exceptions
  import opened Rooms
  import opened Worlds
  import opened Commands
  import opened Players
  import opened Games

  /** `DummyPlayer.have_won`: classroom1 has been visited; the bag plays no
      part. */
  function HaveWon(visited: set<string>, bag: seq<string>): (r: bool)
    ensures r <==> "classroom1" in visited
  {
    var names := ["classroom1"];
    assert names[0] == "classroom1";
    HasAlreadyVisited(visited, names)
  }

  /** The class body of DummyPlayer: a plain `have_won`, no command. */
  const BODY: Dict<string, Attribute> := Dict(["have_won"], map["have_won" := PlainAttribute])

  /** DummyPlayer, a subclass of the base player class. */
  const DUMMY_PLAYER := PlayerClass(BASE_COMMANDS, HaveWon)

  /** The metaclass gives DummyPlayer the base class's commands. */
  lemma DummyPlayerCommands()
    ensures BASE_COMMANDS.Valid()
    ensures CommandTableOf([Some(BASE_COMMANDS)], BODY) == DUMMY_PLAYER.commands
  {
    BaseCommandsByPutIsBase();
    assert BODY.Valid();
    SubclassInheritsCommands(BODY);
  }

  /** The map of the dummy game. */
  ghost predicate Layout(w: World)
    reads w, w.rooms.Values
  {
    && w.rooms.Keys == {"theater", "pub", "classroom1"}
    && var theater, pub, class1 := w.rooms["theater"], w.rooms["pub"], w.rooms["classroom1"];
       && theater.description == "lecture theater" && theater.hook == NoEffect
       && pub.description == "pub" && pub.hook == NoEffect
       && class1.description == "classroom1" && class1.hook == NoEffect
       && theater.adjacent == Empty().Put(North, pub).Put(East, class1)
       && pub.adjacent == Empty().Put(South, theater)
       && class1.adjacent == Empty().Put(West, theater)
  }

  /** `make_the_world`: three rooms, two two-way connections, and the name
      of the starting room. */
  method MakeTheWorld() returns (w: World, start: string)
    ensures fresh(w) && w.Valid() && Layout(w) && start == "theater"
  {
    w := new World();
    var r := w.AddRoom("theater", "lecture theater", NoEffect);
    ghost var theater := w.rooms["theater"];
    assert "pub" !in w.rooms;
    r := w.AddRoom("pub", "pub", NoEffect);
    ghost var pub := w.rooms["pub"];
    assert "classroom1" !in w.rooms;
    r := w.AddRoom("classroom1", "classroom1", NoEffect);
    ghost var class1 := w.rooms["classroom1"];
    assert w.rooms == map["theater" := theater, "pub" := pub, "classroom1" := class1];
    r := w.ConnectRooms("theater", "pub", North);
    r := w.ConnectRooms("theater", "classroom1", East);
    start := "theater";
  }

  /** The rooms around the lecture theater and its exits. */
  lemma TheaterExits(w: World)
    requires w.Valid() && Layout(w)
    ensures var theater, pub, class1 := w.rooms["theater"], w.rooms["pub"], w.rooms["classroom1"];
            && theater in w.rooms.Values
            && theater.description == "lecture theater"
            && pub.description == "pub" && pub.hook == NoEffect
            && class1.description == "classroom1" && class1.hook == NoEffect
            && theater.GetNeighbor(North) == Some(pub) && theater.GetNeighbor(East) == Some(class1)
            && theater.GetNeighbor(South) == None && theater.GetNeighbor(West) == None
  {
    assert "theater" in w.rooms;
  }

  /** The commands DummyPlayer answers to. */
  lemma DummyMove()
    ensures DUMMY_PLAYER.commands.Get("move") == Some(Move)
  {
  }

  /** `move right` from the lecture theater into classroom1: the game is
      won, the winning message is the only output and no further line is
      read. */
  lemma RightWins(w: World, theater: Room, class1: Room, input: seq<string>)
    requires w.Valid() && theater in w.rooms.Values
    requires theater.GetNeighbor(East) == Some(class1) && class1.description == "classroom1" && class1.hook == NoEffect
    requires input != [] && input[0] == "move right"
    ensures Run(w, DUMMY_PLAYER, Snapshot(theater, ["lecture theater"], []), input)
            == Trace([WINNING_MSG], 1, Won, Snapshot(class1, ["lecture theater", "classroom1"], []))
  {
    var start := Snapshot(theater, ["lecture theater"], []);
    assert AddVisited(start.visited, "classroom1") == ["lecture theater", "classroom1"];
    DummyMove();
    MoveWords();
    assert input == ["move " + Alias(East)] + input[1..];
    MoveLine(w, DUMMY_PLAYER, start, East, input[1..]);
  }

  /** `move up` from the lecture theater into the pub, which does not win:
      the arrival message, and the game goes on from the pub. */
  lemma UpToPub(w: World, theater: Room, pub: Room, input: seq<string>)
    requires w.Valid() && theater in w.rooms.Values
    requires theater.GetNeighbor(North) == Some(pub) && pub.description == "pub" && pub.hook == NoEffect
    requires input != [] && input[0] == "move up"
    ensures Run(w, DUMMY_PLAYER, Snapshot(theater, ["lecture theater"], []), input)
            == Prepend([Arrival("pub")], 1, Run(w, DUMMY_PLAYER, Snapshot(pub, ["lecture theater", "pub"], []), input[1..]))
  {
    var start := Snapshot(theater, ["lecture theater"], []);
    assert AddVisited(start.visited, "pub") == ["lecture theater", "pub"];
    assert "classroom1" !in VisitedSet(["lecture theater", "pub"]);
    DummyMove();
    MoveWords();
    assert input == ["move " + Alias(North)] + input[1..];
    MoveLine(w, DUMMY_PLAYER, start, North, input[1..]);
  }

  /** `move down` from the lecture theater, which has no exit that way: the
      failure message, and the game goes on with nothing changed. */
  lemma DownBlocked(w: World, theater: Room, input: seq<string>)
    requires w.Valid() && theater in w.rooms.Values && theater.GetNeighbor(South) == None
    requires input != [] && input[0] == "move down"
    ensures var start := Snapshot(theater, ["lecture theater"], []);
            Run(w, DUMMY_PLAYER, start, input)
            == Prepend([CannotExecute("move down")], 1, Run(w, DUMMY_PLAYER, start, input[1..]))
  {
    var start := Snapshot(theater, ["lecture theater"], []);
    DummyMove();
    MoveWords();
    assert input == ["move " + Alias(South)] + input[1..];
    BlockedLine(w, DUMMY_PLAYER, start, South, input[1..]);
  }

  /** The first line of a dummy game, from the start room of the map built
      by `make_the_world`: `move right` wins at once, `move up` reaches the
      pub and `move down` is refused. */
  lemma FirstMoves(w: World, right: seq<string>, up: seq<string>, down: seq<string>)
    requires w.Valid() && "theater" in w.rooms && "pub" in w.rooms && "classroom1" in w.rooms && Layout(w)
    requires right != [] && right[0] == "move right"
    requires up != [] && up[0] == "move up"
    requires down != [] && down[0] == "move down"
    ensures var theater, pub, class1 := w.rooms["theater"], w.rooms["pub"], w.rooms["classroom1"];
            var start := Snapshot(theater, ["lecture theater"], []);
            && Run(w, DUMMY_PLAYER, start, right)
               == Trace([WINNING_MSG], 1, Won, Snapshot(class1, ["lecture theater", "classroom1"], []))
            && Run(w, DUMMY_PLAYER, start, up)
               == Prepend([Arrival("pub")], 1, Run(w, DUMMY_PLAYER, Snapshot(pub, ["lecture theater", "pub"], []), up[1..]))
            && Run(w, DUMMY_PLAYER, start, down)
               == Prepend([CannotExecute("move down")], 1, Run(w, DUMMY_PLAYER, start, down[1..]))
  {
    var theater, pub, class1 := w.rooms["theater"], w.rooms["pub"], w.rooms["classroom1"];
    TheaterExits(w);
    RightWins(w, theater, class1, right);
    UpToPub(w, theater, pub, up);
    DownBlocked(w, theater, down);
  }
}
