/** The mentoring game: eight rooms around a lecture theater, a restaurant
    that hands out a textbook, and a player who wins after seeing the exam
    room and the mentoring room with the textbook in the bag. */
module Mentoring {
  import opened Dicts
  import opened Exceptions
  import opened Rooms
  import opened Worlds
  import opened Commands
  import opened Players
  import opened Games

  /** `MentoringPlayer.have_won`. */
  function HaveWon(visited: set<string>, bag: seq<string>): (r: bool)
    ensures r <==> "exam_room" in visited && "mentoring-room" in visited && "textbook" in bag
  {
    var names := ["exam_room", "mentoring-room"];
    assert names[0] == "exam_room" && names[1] == "mentoring-room";
    if !HasAlreadyVisited(visited, names) then false
    else IsInBag(bag, "textbook")
  }

  /** The class body of MentoringPlayer: a plain `have_won`, no command. */
  const BODY: Dict<string, Attribute> := Dict(["have_won"], map["have_won" := PlainAttribute])

  /** MentoringPlayer, a subclass of the base player class. */
  const MENTORING_PLAYER := PlayerClass(BASE_COMMANDS, HaveWon)

  /** The metaclass gives MentoringPlayer the base class's commands. */
  lemma MentoringPlayerCommands()
    ensures BASE_COMMANDS.Valid()
    ensures CommandTableOf([Some(BASE_COMMANDS)], BODY) == MENTORING_PLAYER.commands
  {
    BaseCommandsByPutIsBase();
    assert BODY.Valid();
    SubclassInheritsCommands(BODY);
  }

  /** The four commands MentoringPlayer answers to. */
  lemma MentoringLookups()
    ensures MENTORING_PLAYER.commands.Get("move") == Some(Move)
    ensures MENTORING_PLAYER.commands.Get("where") == Some(Where)
    ensures MENTORING_PLAYER.commands.Get("ls") == Some(Ls)
  {
  }

  /** RestaurantRoom: entering it puts a textbook in the bag. */
  const RESTAURANT_HOOK := AddToBag("textbook")

  const NAMES := {"theater", "pub", "restaurant", "engineering_reception", "exam_room",
                  "class_room1", "class_room2", "mentoring-room"}

  /** The map of the mentoring game: the rooms under their names, with
      their descriptions, their hooks and their exits in the order they were
      connected. */
  ghost predicate Layout(w: World)
    reads w, w.rooms.Values
  {
    && w.rooms.Keys == NAMES
    && var theater, pub, restaurant := w.rooms["theater"], w.rooms["pub"], w.rooms["restaurant"];
       var reception, exam := w.rooms["engineering_reception"], w.rooms["exam_room"];
       var class1, class2, mentoring := w.rooms["class_room1"], w.rooms["class_room2"], w.rooms["mentoring-room"];
       && theater.description == "lecture theater" && theater.hook == NoEffect
       && pub.description == "pub" && pub.hook == NoEffect
       && restaurant.description == "restaurant" && restaurant.hook == RESTAURANT_HOOK
       && reception.description == "Engineering Reception" && reception.hook == NoEffect
       && exam.description == "exam_room" && exam.hook == NoEffect
       && class1.description == "class_room1" && class1.hook == NoEffect
       && class2.description == "class_room2" && class2.hook == NoEffect
       && mentoring.description == "mentoring-room" && mentoring.hook == NoEffect
       && theater.adjacent == Empty().Put(North, pub).Put(East, mentoring).Put(South, restaurant)
       && pub.adjacent == Empty().Put(South, theater)
       && mentoring.adjacent == Empty().Put(West, theater)
       && restaurant.adjacent == Empty().Put(North, theater).Put(East, class1).Put(West, class2)
       && class1.adjacent == Empty().Put(West, restaurant)
       && class2.adjacent == Empty().Put(East, restaurant).Put(North, reception)
       && reception.adjacent == Empty().Put(South, class2).Put(East, exam)
       && exam.adjacent == Empty().Put(West, reception)
  }

  /** The first four `add_room` calls of `make_the_world`. */
  method AddFirstRooms(w: World)
    requires w.Valid() && w.rooms == map[]
    modifies w
    ensures w.Valid() && w.rooms.Keys == {"theater", "pub", "restaurant", "engineering_reception"}
    ensures fresh(w.rooms["theater"]) && fresh(w.rooms["pub"])
    ensures fresh(w.rooms["restaurant"]) && fresh(w.rooms["engineering_reception"])
    ensures w.rooms["theater"] != w.rooms["pub"] && w.rooms["theater"] != w.rooms["restaurant"]
    ensures w.rooms["theater"] != w.rooms["engineering_reception"] && w.rooms["pub"] != w.rooms["restaurant"]
    ensures w.rooms["pub"] != w.rooms["engineering_reception"] && w.rooms["restaurant"] != w.rooms["engineering_reception"]
    ensures w.rooms["theater"].description == "lecture theater" && w.rooms["theater"].hook == NoEffect
    ensures w.rooms["pub"].description == "pub" && w.rooms["pub"].hook == NoEffect
    ensures w.rooms["restaurant"].description == "restaurant" && w.rooms["restaurant"].hook == RESTAURANT_HOOK
    ensures w.rooms["engineering_reception"].description == "Engineering Reception"
    ensures w.rooms["engineering_reception"].hook == NoEffect
    ensures forall n | n in w.rooms :: w.rooms[n].adjacent == Empty()
  {
    var r := w.AddRoom("theater", "lecture theater", NoEffect);
    ghost var theater := w.rooms["theater"];
    assert "pub" !in w.rooms;
    r := w.AddRoom("pub", "pub", NoEffect);
    ghost var pub := w.rooms["pub"];
    assert "restaurant" !in w.rooms;
    r := w.AddRoom("restaurant", "restaurant", RESTAURANT_HOOK);
    ghost var restaurant := w.rooms["restaurant"];
    assert "engineering_reception" !in w.rooms;
    r := w.AddRoom("engineering_reception", "Engineering Reception", NoEffect);
    ghost var reception := w.rooms["engineering_reception"];
    assert w.rooms == map["theater" := theater, "pub" := pub, "restaurant" := restaurant,
                          "engineering_reception" := reception];
  }

  /** The last four `add_room` calls of `make_the_world`. */
  method AddLastRooms(w: World)
    requires w.Valid() && w.rooms.Keys == {"theater", "pub", "restaurant", "engineering_reception"}
    modifies w
    ensures w.Valid() && w.rooms.Keys == NAMES
    ensures forall n | n in old(w.rooms) :: w.rooms[n] == old(w.rooms[n])
    ensures fresh(w.rooms["exam_room"]) && fresh(w.rooms["class_room1"])
    ensures fresh(w.rooms["class_room2"]) && fresh(w.rooms["mentoring-room"])
    ensures w.rooms["exam_room"].description == "exam_room" && w.rooms["exam_room"].hook == NoEffect
    ensures w.rooms["class_room1"].description == "class_room1" && w.rooms["class_room1"].hook == NoEffect
    ensures w.rooms["class_room2"].description == "class_room2" && w.rooms["class_room2"].hook == NoEffect
    ensures w.rooms["mentoring-room"].description == "mentoring-room" && w.rooms["mentoring-room"].hook == NoEffect
    ensures w.rooms["exam_room"] != w.rooms["class_room1"] && w.rooms["exam_room"] != w.rooms["class_room2"]
    ensures w.rooms["exam_room"] != w.rooms["mentoring-room"] && w.rooms["class_room1"] != w.rooms["class_room2"]
    ensures w.rooms["class_room1"] != w.rooms["mentoring-room"] && w.rooms["class_room2"] != w.rooms["mentoring-room"]
    ensures w.rooms["exam_room"].adjacent == Empty() && w.rooms["class_room1"].adjacent == Empty()
    ensures w.rooms["class_room2"].adjacent == Empty() && w.rooms["mentoring-room"].adjacent == Empty()
  {
    ghost var before := w.rooms;
    assert "exam_room" !in w.rooms;
    var r := w.AddRoom("exam_room", "exam_room", NoEffect);
    ghost var exam := w.rooms["exam_room"];
    assert "class_room1" !in w.rooms;
    r := w.AddRoom("class_room1", "class_room1", NoEffect);
    ghost var class1 := w.rooms["class_room1"];
    assert "class_room2" !in w.rooms;
    r := w.AddRoom("class_room2", "class_room2", NoEffect);
    ghost var class2 := w.rooms["class_room2"];
    assert "mentoring-room" !in w.rooms;
    r := w.AddRoom("mentoring-room", "mentoring-room", NoEffect);
    ghost var mentoring := w.rooms["mentoring-room"];
    assert w.rooms == before["exam_room" := exam]["class_room1" := class1]["class_room2" := class2]
                            ["mentoring-room" := mentoring];
  }

  /** The first three `connect_rooms` calls of `make_the_world`: the exits
      of the lecture theater. */
  method ConnectTheater(w: World, ghost theater: Room, ghost pub: Room, ghost restaurant: Room, ghost reception: Room,
                        ghost exam: Room, ghost class1: Room, ghost class2: Room, ghost mentoring: Room)
    requires w.Valid() && w.rooms.Keys == NAMES
    requires w.rooms["theater"] == theater && w.rooms["pub"] == pub && w.rooms["restaurant"] == restaurant
    requires w.rooms["engineering_reception"] == reception && w.rooms["exam_room"] == exam
    requires w.rooms["class_room1"] == class1 && w.rooms["class_room2"] == class2
    requires w.rooms["mentoring-room"] == mentoring
    requires AllDifferent(theater, pub, restaurant, reception, exam, class1, class2, mentoring)
    requires theater.adjacent == Empty() && pub.adjacent == Empty() && restaurant.adjacent == Empty()
    requires reception.adjacent == Empty() && exam.adjacent == Empty() && class1.adjacent == Empty()
    requires class2.adjacent == Empty() && mentoring.adjacent == Empty()
    modifies w.rooms.Values
    ensures w.Valid()
    ensures theater.adjacent == Empty().Put(North, pub).Put(East, mentoring).Put(South, restaurant)
    ensures pub.adjacent == Empty().Put(South, theater)
    ensures mentoring.adjacent == Empty().Put(West, theater)
    ensures restaurant.adjacent == Empty().Put(North, theater)
    ensures reception.adjacent == Empty() && exam.adjacent == Empty()
    ensures class1.adjacent == Empty() && class2.adjacent == Empty()
  {
    var r := w.ConnectRooms("theater", "pub", North);
    r := w.ConnectRooms("theater", "mentoring-room", East);
    r := w.ConnectRooms("theater", "restaurant", South);
  }

  /** The last four `connect_rooms` calls of `make_the_world`: from the
      restaurant through the class rooms to the exam room. */
  method ConnectCampus(w: World, ghost theater: Room, ghost pub: Room, ghost restaurant: Room, ghost reception: Room,
                       ghost exam: Room, ghost class1: Room, ghost class2: Room, ghost mentoring: Room)
    requires w.Valid() && w.rooms.Keys == NAMES
    requires w.rooms["theater"] == theater && w.rooms["pub"] == pub && w.rooms["restaurant"] == restaurant
    requires w.rooms["engineering_reception"] == reception && w.rooms["exam_room"] == exam
    requires w.rooms["class_room1"] == class1 && w.rooms["class_room2"] == class2
    requires w.rooms["mentoring-room"] == mentoring
    requires AllDifferent(theater, pub, restaurant, reception, exam, class1, class2, mentoring)
    requires restaurant.adjacent == Empty().Put(North, theater)
    requires reception.adjacent == Empty() && exam.adjacent == Empty()
    requires class1.adjacent == Empty() && class2.adjacent == Empty()
    modifies w.rooms.Values
    ensures w.Valid()
    ensures forall r | r in {theater, pub, mentoring} :: r.adjacent == old(r.adjacent)
    ensures restaurant.adjacent == Empty().Put(North, theater).Put(East, class1).Put(West, class2)
    ensures class1.adjacent == Empty().Put(West, restaurant)
    ensures class2.adjacent == Empty().Put(East, restaurant).Put(North, reception)
    ensures reception.adjacent == Empty().Put(South, class2).Put(East, exam)
    ensures exam.adjacent == Empty().Put(West, reception)
  {
    var r := w.ConnectRooms("restaurant", "class_room1", East);
    r := w.ConnectRooms("restaurant", "class_room2", West);
    r := w.ConnectRooms("class_room2", "engineering_reception", North);
    r := w.ConnectRooms("engineering_reception", "exam_room", East);
  }

  ghost predicate AllDifferent(a: Room, b: Room, c: Room, d: Room, e: Room, f: Room, g: Room, h: Room) {
    && a != b && a != c && a != d && a != e && a != f && a != g && a != h
    && b != c && b != d && b != e && b != f && b != g && b != h
    && c != d && c != e && c != f && c != g && c != h
    && d != e && d != f && d != g && d != h
    && e != f && e != g && e != h
    && f != g && f != h
    && g != h
  }

  /** `make_the_world`: the eight rooms and their seven two-way
      connections, and the name of the starting room. */
  method MakeTheWorld() returns (w: World, start: string)
    ensures fresh(w) && w.Valid() && Layout(w) && start == "theater"
  {
    w := new World();
    AddFirstRooms(w);
    ghost var theater, pub := w.rooms["theater"], w.rooms["pub"];
    ghost var restaurant, reception := w.rooms["restaurant"], w.rooms["engineering_reception"];
    AddLastRooms(w);
    ghost var exam, class1 := w.rooms["exam_room"], w.rooms["class_room1"];
    ghost var class2, mentoring := w.rooms["class_room2"], w.rooms["mentoring-room"];
    ConnectTheater(w, theater, pub, restaurant, reception, exam, class1, class2, mentoring);
    ConnectCampus(w, theater, pub, restaurant, reception, exam, class1, class2, mentoring);
    start := "theater";
  }
}

module MentoringRuns {
  import opened Dicts
  import opened Exceptions
  import opened Rooms
  import opened Worlds
  import opened Commands
  import opened Players
  import opened Games
  import opened Mentoring

  /** `move <alias>` through an exit of `s.room` into `next`, leaving the
      game undecided: the arrival message, and the run goes on from `entered`. */
  lemma Walk(w: World, s: Snapshot, d: Direction, next: Room, entered: Snapshot, input: seq<string>)
    requires w.Valid() && s.room in w.rooms.Values
    requires input != [] && input[0] == "move " + Alias(d)
    requires s.room.GetNeighbor(d) == Some(next)
    requires entered == ApplyHook(next.hook, Snapshot(next, AddVisited(s.visited, next.description), s.bag))
    requires !HaveWon(VisitedSet(entered.visited), entered.bag)
    ensures next in w.rooms.Values
    ensures Run(w, MENTORING_PLAYER, s, input)
            == Prepend([Arrival(next.description)], 1, Run(w, MENTORING_PLAYER, entered, input[1..]))
  {
    MentoringLookups();
    assert input == ["move " + Alias(d)] + input[1..];
    MoveLine(w, MENTORING_PLAYER, s, d, input[1..]);
  }

  /** `where` answers with the room description, the exits and the visited
      rooms, and changes nothing. */
  lemma Look(w: World, s: Snapshot, input: seq<string>)
    requires w.Valid() && s.room in w.rooms.Values
    requires input != [] && input[0] == "where"
    ensures Run(w, MENTORING_PLAYER, s, input)
            == Prepend([WhereText(s)], 1, Run(w, MENTORING_PLAYER, s, input[1..]))
  {
    assert Step(MENTORING_PLAYER, s, "where") == (Ok(WhereText(s)), s) by {
      MentoringLookups();
      WhereQuery(MENTORING_PLAYER, s);
    }
    QueryLine(w, MENTORING_PLAYER, s, input, WhereText(s));
  }

  /** `ls` lists the commands and changes nothing. */
  lemma Listing(w: World, s: Snapshot, input: seq<string>)
    requires w.Valid() && s.room in w.rooms.Values
    requires input != [] && input[0] == "ls"
    ensures Run(w, MENTORING_PLAYER, s, input)
            == Prepend([LsText(MENTORING_PLAYER)], 1, Run(w, MENTORING_PLAYER, s, input[1..]))
  {
    assert Step(MENTORING_PLAYER, s, "ls") == (Ok(LsText(MENTORING_PLAYER)), s) by {
      MentoringLookups();
      LsQuery(MENTORING_PLAYER, s);
    }
    QueryLine(w, MENTORING_PLAYER, s, input, LsText(MENTORING_PLAYER));
  }

  /** The exits and the rooms the winning run walks through. */
  lemma LayoutExits(w: World)
    requires w.Valid() && Layout(w)
    ensures var theater, restaurant, mentoring := w.rooms["theater"], w.rooms["restaurant"], w.rooms["mentoring-room"];
            var class2, reception, exam := w.rooms["class_room2"], w.rooms["engineering_reception"], w.rooms["exam_room"];
            && theater.GetNeighbor(South) == Some(restaurant)
            && theater.GetNeighbor(East) == Some(mentoring)
            && restaurant.GetNeighbor(North) == Some(theater)
            && restaurant.GetNeighbor(West) == Some(class2)
            && mentoring.GetNeighbor(South) == None
            && mentoring.GetNeighbor(West) == Some(theater)
            && class2.GetNeighbor(North) == Some(reception)
            && reception.GetNeighbor(East) == Some(exam)
  {
  }

  /** Without the exam room among the visited rooms the game is not won. */
  lemma NotYetWon(visited: seq<string>, bag: seq<string>)
    requires "exam_room" !in visited
    ensures !HaveWon(VisitedSet(visited), bag)
  {
  }

  /** `move <alias>` into a room not visited before, other than the exam
      room, before the exam room has been seen. */
  lemma Enter(w: World, s: Snapshot, d: Direction, next: Room, input: seq<string>)
    requires w.Valid() && s.room in w.rooms.Values
    requires input != [] && input[0] == "move " + Alias(d)
    requires s.room.GetNeighbor(d) == Some(next)
    requires next.description !in s.visited && next.description != "exam_room" && "exam_room" !in s.visited
    ensures next in w.rooms.Values
    ensures var entered := ApplyHook(next.hook, Snapshot(next, s.visited + [next.description], s.bag));
            Run(w, MENTORING_PLAYER, s, input)
            == Prepend([Arrival(next.description)], 1, Run(w, MENTORING_PLAYER, entered, input[1..]))
  {
    var entered := ApplyHook(next.hook, Snapshot(next, s.visited + [next.description], s.bag));
    NotYetWon(entered.visited, entered.bag);
    Walk(w, s, d, next, entered, input);
  }

  /** `move <alias>` back into a room already visited, before the exam room
      has been seen. */
  lemma Return(w: World, s: Snapshot, d: Direction, next: Room, input: seq<string>)
    requires w.Valid() && s.room in w.rooms.Values
    requires input != [] && input[0] == "move " + Alias(d)
    requires s.room.GetNeighbor(d) == Some(next)
    requires next.description in s.visited && "exam_room" !in s.visited
    ensures next in w.rooms.Values
    ensures var entered := ApplyHook(next.hook, Snapshot(next, s.visited, s.bag));
            Run(w, MENTORING_PLAYER, s, input)
            == Prepend([Arrival(next.description)], 1, Run(w, MENTORING_PLAYER, entered, input[1..]))
  {
    var entered := ApplyHook(next.hook, Snapshot(next, s.visited, s.bag));
    NotYetWon(entered.visited, entered.bag);
    Walk(w, s, d, next, entered, input);
  }

  /** Lines 1 to 4: `ls`, `where`, `move down` into the restaurant (which
      hands out the textbook) and `move up` back to the lecture theater. */
  lemma OpeningMoves(w: World, theater: Room, restaurant: Room, input: seq<string>)
    requires w.Valid() && theater in w.rooms.Values
    requires theater.description == "lecture theater" && theater.hook == NoEffect
    requires restaurant.description == "restaurant" && restaurant.hook == RESTAURANT_HOOK
    requires theater.GetNeighbor(South) == Some(restaurant) && restaurant.GetNeighbor(North) == Some(theater)
    requires |input| >= 4 && input[0] == "ls" && input[1] == "where" && input[2] == "move down" && input[3] == "move up"
    ensures var s0 := Snapshot(theater, ["lecture theater"], []);
            Run(w, MENTORING_PLAYER, s0, input)
            == Prepend([LsText(MENTORING_PLAYER), WhereText(s0), Arrival("restaurant"),
                        Arrival("lecture theater")], 4,
                       Run(w, MENTORING_PLAYER, Snapshot(theater, ["lecture theater", "restaurant"], ["textbook"]), input[4..]))
  {
    var s0 := Snapshot(theater, ["lecture theater"], []);
    var visited := ["lecture theater", "restaurant"];
    var s1 := Snapshot(restaurant, visited, ["textbook"]);
    var s2 := Snapshot(theater, visited, ["textbook"]);
    MoveWords();
    var t := Run(w, MENTORING_PLAYER, s2, input[4..]);
    assert visited == s0.visited + ["restaurant"] && "restaurant" !in s0.visited;
    assert input[3..][1..] == input[4..] && input[2..][1..] == input[3..] && input[1..][1..] == input[2..];
    assert ApplyHook(restaurant.hook, Snapshot(restaurant, s0.visited + ["restaurant"], s0.bag)) == s1;
    Return(w, s1, North, theater, input[3..]);
    Enter(w, s0, South, restaurant, input[2..]);
    Look(w, s0, input[1..]);
    Listing(w, s0, input);
    Prepend4(LsText(MENTORING_PLAYER), WhereText(s0), Arrival("restaurant"), Arrival("lecture theater"), t);
  }

  /** The winning `move <alias>`: the room entered completes the win
      condition, the winning message is written and the loop stops. */
  lemma WinningWalk(w: World, s: Snapshot, d: Direction, next: Room, entered: Snapshot, input: seq<string>)
    requires w.Valid() && s.room in w.rooms.Values
    requires input != [] && input[0] == "move " + Alias(d)
    requires s.room.GetNeighbor(d) == Some(next)
    requires entered == ApplyHook(next.hook, Snapshot(next, AddVisited(s.visited, next.description), s.bag))
    requires HaveWon(VisitedSet(entered.visited), entered.bag)
    ensures Run(w, MENTORING_PLAYER, s, input) == Trace([WINNING_MSG], 1, Won, entered)
  {
    MentoringLookups();
    assert input == ["move " + Alias(d)] + input[1..];
    MoveLine(w, MENTORING_PLAYER, s, d, input[1..]);
  }

  /** `move <alias>` where the room has no exit: the failure message, and
      the run goes on from the same state. */
  lemma Bump(w: World, s: Snapshot, d: Direction, input: seq<string>)
    requires w.Valid() && s.room in w.rooms.Values
    requires input != [] && input[0] == "move " + Alias(d)
    requires s.room.GetNeighbor(d) == None
    ensures Run(w, MENTORING_PLAYER, s, input)
            == Prepend([CannotExecute("move " + Alias(d))], 1, Run(w, MENTORING_PLAYER, s, input[1..]))
  {
    MentoringLookups();
    assert input == ["move " + Alias(d)] + input[1..];
    BlockedLine(w, MENTORING_PLAYER, s, d, input[1..]);
  }

  /** Lines 5 to 8: `where`, `move right` into the mentoring room, `move
      down` against the wall and `move left` back to the lecture theater. */
  lemma MiddleMoves(w: World, theater: Room, mentoring: Room, input: seq<string>)
    requires w.Valid() && theater in w.rooms.Values
    requires theater.description == "lecture theater" && theater.hook == NoEffect
    requires mentoring.description == "mentoring-room" && mentoring.hook == NoEffect
    requires theater.GetNeighbor(East) == Some(mentoring)
    requires mentoring.GetNeighbor(South) == None && mentoring.GetNeighbor(West) == Some(theater)
    requires |input| >= 4 && input[0] == "where" && input[1] == "move right" && input[2] == "move down" && input[3] == "move left"
    ensures var s := Snapshot(theater, ["lecture theater", "restaurant"], ["textbook"]);
            Run(w, MENTORING_PLAYER, s, input)
            == Prepend([WhereText(s), Arrival("mentoring-room"), CannotExecute("move down"),
                        Arrival("lecture theater")], 4,
                       Run(w, MENTORING_PLAYER,
                           Snapshot(theater, ["lecture theater", "restaurant", "mentoring-room"], ["textbook"]), input[4..]))
  {
    var bag := ["textbook"];
    var s2 := Snapshot(theater, ["lecture theater", "restaurant"], bag);
    var visited := ["lecture theater", "restaurant", "mentoring-room"];
    var s3 := Snapshot(mentoring, visited, bag);
    var s4 := Snapshot(theater, visited, bag);
    MoveWords();
    var t := Run(w, MENTORING_PLAYER, s4, input[4..]);
    assert visited == s2.visited + ["mentoring-room"] && "mentoring-room" !in s2.visited;
    assert input[3..][1..] == input[4..] && input[2..][1..] == input[3..] && input[1..][1..] == input[2..];
    Return(w, s3, West, theater, input[3..]);
    Bump(w, s3, South, input[2..]);
    Enter(w, s2, East, mentoring, input[1..]);
    Look(w, s2, input);
    Prepend4(WhereText(s2), Arrival("mentoring-room"), CannotExecute("move down"), Arrival("lecture theater"), t);
  }

  /** Lines 9 to 12: `move down` into the restaurant (a second textbook),
      `move left`, `move up` to the reception and `move right` into the
      exam room, which wins. */
  lemma ClosingMoves(w: World, theater: Room, restaurant: Room, class2: Room, reception: Room, exam: Room,
                     input: seq<string>)
    requires w.Valid() && theater in w.rooms.Values
    requires restaurant.description == "restaurant" && restaurant.hook == RESTAURANT_HOOK
    requires class2.description == "class_room2" && class2.hook == NoEffect
    requires reception.description == "Engineering Reception" && reception.hook == NoEffect
    requires exam.description == "exam_room" && exam.hook == NoEffect
    requires theater.GetNeighbor(South) == Some(restaurant) && restaurant.GetNeighbor(West) == Some(class2)
    requires class2.GetNeighbor(North) == Some(reception) && reception.GetNeighbor(East) == Some(exam)
    requires |input| >= 4 && input[0] == "move down" && input[1] == "move left" && input[2] == "move up" && input[3] == "move right"
    ensures var v3 := ["lecture theater", "restaurant", "mentoring-room"];
            Run(w, MENTORING_PLAYER, Snapshot(theater, v3, ["textbook"]), input)
            == Prepend([Arrival("restaurant"), Arrival("class_room2"), Arrival("Engineering Reception")], 3,
                       Trace([WINNING_MSG], 1, Won,
                             Snapshot(exam, v3 + ["class_room2"] + ["Engineering Reception"] + ["exam_room"],
                                      ["textbook", "textbook"])))
  {
    var v3 := ["lecture theater", "restaurant", "mentoring-room"];
    var bag := ["textbook", "textbook"];
    var s4 := Snapshot(theater, v3, ["textbook"]);
    var s5 := ApplyHook(restaurant.hook, Snapshot(restaurant, v3, s4.bag));
    assert s5.bag == bag;
    var s6 := Snapshot(class2, v3 + ["class_room2"], bag);
    var s7 := Snapshot(reception, s6.visited + ["Engineering Reception"], bag);
    var won := Snapshot(exam, s7.visited + ["exam_room"], bag);
    MoveWords();
    w.ExitInside(theater, South);
    w.ExitInside(restaurant, West);
    w.ExitInside(class2, North);
    assert input[2..][1..] == input[3..] && input[1..][1..] == input[2..];
    assert "restaurant" in v3 && "class_room2" !in v3 && "exam_room" !in v3;
    assert "Engineering Reception" !in s6.visited && "exam_room" !in s6.visited;
    WinningWalk(w, s7, East, exam, won, input[3..]) by {
      assert "exam_room" !in s7.visited && "mentoring-room" in won.visited && "exam_room" in won.visited;
    }
    Enter(w, s6, North, reception, input[2..]);
    Enter(w, s5, West, class2, input[1..]);
    Return(w, s4, South, restaurant, input);
    Prepend3(Arrival("restaurant"), Arrival("class_room2"), Arrival("Engineering Reception"), Trace([WINNING_MSG], 1, Won, won));
  }

  /** The command sequence of the mentoring test. */
  const WINNING_SEQUENCE := ["ls", "where", "move down", "move up", "where", "move right", "move down",
                             "move left", "move down", "move left", "move up", "move right", "where"]

  /** The twelve lines the winning run reads, one by one. */
  ghost predicate WinningLines(input: seq<string>) {
    && |input| >= 12
    && input[0] == "ls" && input[1] == "where" && input[2] == "move down" && input[3] == "move up"
    && input[4] == "where" && input[5] == "move right" && input[6] == "move down" && input[7] == "move left"
    && input[8] == "move down" && input[9] == "move left" && input[10] == "move up" && input[11] == "move right"
  }

  /** Proof helper: the test's sequence, read line by line. */
  lemma TestSequenceLines()
    ensures WinningLines(WINNING_SEQUENCE) && |WINNING_SEQUENCE| == 13
  {
  }

  /** The messages of the winning run, stretch by stretch, over rooms with
      the mentoring map's descriptions, hooks and exits. */
  lemma TourTrace(w: World, theater: Room, restaurant: Room, mentoring: Room, class2: Room, reception: Room, exam: Room,
                  input: seq<string>)
    requires w.Valid() && theater in w.rooms.Values
    requires theater.description == "lecture theater" && theater.hook == NoEffect
    requires restaurant.description == "restaurant" && restaurant.hook == RESTAURANT_HOOK
    requires mentoring.description == "mentoring-room" && mentoring.hook == NoEffect
    requires class2.description == "class_room2" && class2.hook == NoEffect
    requires reception.description == "Engineering Reception" && reception.hook == NoEffect
    requires exam.description == "exam_room" && exam.hook == NoEffect
    requires theater.GetNeighbor(South) == Some(restaurant) && restaurant.GetNeighbor(North) == Some(theater)
    requires theater.GetNeighbor(East) == Some(mentoring)
    requires mentoring.GetNeighbor(South) == None && mentoring.GetNeighbor(West) == Some(theater)
    requires restaurant.GetNeighbor(West) == Some(class2)
    requires class2.GetNeighbor(North) == Some(reception) && reception.GetNeighbor(East) == Some(exam)
    requires WinningLines(input)
    ensures var s0 := Snapshot(theater, ["lecture theater"], []);
            var v3 := ["lecture theater", "restaurant", "mentoring-room"];
            Run(w, MENTORING_PLAYER, s0, input)
            == Prepend([LsText(MENTORING_PLAYER), WhereText(s0), Arrival("restaurant"), Arrival("lecture theater")], 4,
               Prepend([WhereText(Snapshot(theater, ["lecture theater", "restaurant"], ["textbook"])), Arrival("mentoring-room"),
                        CannotExecute("move down"), Arrival("lecture theater")], 4,
               Prepend([Arrival("restaurant"), Arrival("class_room2"), Arrival("Engineering Reception")], 3,
                       Trace([WINNING_MSG], 1, Won,
                             Snapshot(exam, v3 + ["class_room2"] + ["Engineering Reception"] + ["exam_room"],
                                      ["textbook", "textbook"])))))
  {
    assert input[4..][4..] == input[8..];
    ClosingMoves(w, theater, restaurant, class2, reception, exam, input[8..]);
    MiddleMoves(w, theater, mentoring, input[4..]);
    OpeningMoves(w, theater, restaurant, input);
  }

  /** The whole winning run: twelve turns, and the game is won. */
  lemma Tour(w: World, theater: Room, restaurant: Room, mentoring: Room, class2: Room, reception: Room, exam: Room,
             input: seq<string>)
    requires w.Valid() && theater in w.rooms.Values
    requires theater.description == "lecture theater" && theater.hook == NoEffect
    requires restaurant.description == "restaurant" && restaurant.hook == RESTAURANT_HOOK
    requires mentoring.description == "mentoring-room" && mentoring.hook == NoEffect
    requires class2.description == "class_room2" && class2.hook == NoEffect
    requires reception.description == "Engineering Reception" && reception.hook == NoEffect
    requires exam.description == "exam_room" && exam.hook == NoEffect
    requires theater.GetNeighbor(South) == Some(restaurant) && restaurant.GetNeighbor(North) == Some(theater)
    requires theater.GetNeighbor(East) == Some(mentoring)
    requires mentoring.GetNeighbor(South) == None && mentoring.GetNeighbor(West) == Some(theater)
    requires restaurant.GetNeighbor(West) == Some(class2)
    requires class2.GetNeighbor(North) == Some(reception) && reception.GetNeighbor(East) == Some(exam)
    requires WinningLines(input)
    ensures var t := Run(w, MENTORING_PLAYER, Snapshot(theater, ["lecture theater"], []), input);
            && t.ending == Won && t.consumed == 12 && |t.output| == 12
            && t.output[11] == WINNING_MSG
            && t.output[2] == Arrival("restaurant")
            && t.output[6] == CannotExecute("move down")
            && t.last.room == exam
            && t.last.visited == ["lecture theater", "restaurant", "mentoring-room"]
                                 + ["class_room2"] + ["Engineering Reception"] + ["exam_room"]
  {
    TourTrace(w, theater, restaurant, mentoring, class2, reception, exam, input);
    var s0 := Snapshot(theater, ["lecture theater"], []);
    var opening := [LsText(MENTORING_PLAYER), WhereText(s0), Arrival("restaurant"), Arrival("lecture theater")];
    var middle := [WhereText(Snapshot(theater, ["lecture theater", "restaurant"], ["textbook"])), Arrival("mentoring-room"),
                   CannotExecute("move down"), Arrival("lecture theater")];
    var closing := [Arrival("restaurant"), Arrival("class_room2"), Arrival("Engineering Reception")];
    var t := Run(w, MENTORING_PLAYER, s0, input);
    assert t.output[2] == opening[2] && t.output[6] == middle[2] && t.output[11] == WINNING_MSG by {
      assert t.output == opening + (middle + (closing + [WINNING_MSG]));
    }
  }

  /** The rooms of the mentoring map the winning run walks through. */
  lemma LayoutRooms(w: World)
    requires w.Valid() && Layout(w)
    ensures var theater, restaurant, mentoring := w.rooms["theater"], w.rooms["restaurant"], w.rooms["mentoring-room"];
            var class2, reception, exam := w.rooms["class_room2"], w.rooms["engineering_reception"], w.rooms["exam_room"];
            && theater in w.rooms.Values
            && theater.description == "lecture theater" && theater.hook == NoEffect
            && restaurant.description == "restaurant" && restaurant.hook == RESTAURANT_HOOK
            && mentoring.description == "mentoring-room" && mentoring.hook == NoEffect
            && class2.description == "class_room2" && class2.hook == NoEffect
            && reception.description == "Engineering Reception" && reception.hook == NoEffect
            && exam.description == "exam_room" && exam.hook == NoEffect
  {
    assert "theater" in w.rooms;
  }

  /** Playing the test's command sequence from the lecture theater of the
      mentoring map: the game is won on the twelfth line, the thirteenth is
      never read, and the last message written is the winning message. */
  lemma WinningSequenceWins(w: World)
    requires w.Valid() && "theater" in w.rooms && "exam_room" in w.rooms && Layout(w)
    ensures var t := Run(w, MENTORING_PLAYER, Snapshot(w.rooms["theater"], ["lecture theater"], []), WINNING_SEQUENCE);
            && t.ending == Won && t.consumed == 12 && t.consumed < |WINNING_SEQUENCE| && |t.output| == 12
            && t.output[|t.output| - 1] == WINNING_MSG
            && t.output[2] == Arrival("restaurant")
            && t.output[6] == CannotExecute("move down")
            && t.last.room == w.rooms["exam_room"]
  {
    LayoutExits(w);
    LayoutRooms(w);
    TestSequenceLines();
    Tour(w, w.rooms["theater"], w.rooms["restaurant"], w.rooms["mentoring-room"], w.rooms["class_room2"],
         w.rooms["engineering_reception"], w.rooms["exam_room"], WINNING_SEQUENCE);
  }
}
