/** The player: where they stand, which rooms they have entered, what they
    carry, and how a line of user input becomes a command that changes this
    state. The functions here specify one command; the Player class carries
    it out on its own fields. */
module Players {
  import opened Dicts
  import opened Exceptions
  import opened Rooms
  import opened Worlds
  import opened Commands

  /** A game's win condition, over the visited entries and the bag. */
  type WinPredicate = (set<string>, seq<string>) -> bool

  /** What a player class fixes: its command table and its win condition. */
  datatype PlayerClass = PlayerClass(commands: CommandTable, haveWon: WinPredicate)

  /** The state commands change. `visited` holds room descriptions, each
      once, in the order they were first entered. */
  datatype Snapshot = Snapshot(room: Room, visited: seq<string>, bag: seq<string>)

  function VisitedSet(visited: seq<string>): set<string> {
    set x | x in visited
  }

  /** `item in bag`. */
  function IsInBag(bag: seq<string>, item: string): (r: bool)
    ensures r <==> exists i | 0 <= i < |bag| :: bag[i] == item
  {
    item in bag
  }

  /** True when every one of `names` has been visited; vacuously true for
      no names. */
  function HasAlreadyVisited(visited: set<string>, names: seq<string>): (r: bool)
    ensures r <==> forall i | 0 <= i < |names| :: names[i] in visited
  {
    if names == [] then true
    else if names[0] !in visited then false
    else HasAlreadyVisited(visited, names[1..])
  }

  /** `visited.add(entry)`. */
  function AddVisited(visited: seq<string>, entry: string): (r: seq<string>)
    ensures VisitedSet(r) == VisitedSet(visited) + {entry}
    ensures visited <= r
    ensures Distinct(visited) ==> Distinct(r)
  {
    if entry in visited then visited else visited + [entry]
  }

  /** The room's on-enter hook applied to the player. */
  function ApplyHook(h: EnterHook, s: Snapshot): (r: Snapshot)
    ensures r.room == s.room && r.visited == s.visited
    ensures h.NoEffect? ==> r == s
    ensures h.AddToBag? ==> r.bag == s.bag + [h.item]
  {
    match h
    case NoEffect => s
    case AddToBag(item) => s.(bag := s.bag + [item])
  }

  /** What `move` answers on arriving in a room. */
  function Arrival(description: string): string {
    "You are now in: " + description + " "
  }

  /** The message a command gets when it cannot be executed. */
  function CannotExecute(line: string): string {
    "Command <" + line + "> cannot be executed."
  }

  /** The `move` command on a direction word: KeyError for a word that is
      not an alias, CommandCannotBeExecuted where there is no neighbour;
      otherwise enter the neighbour, record its description, run its hook,
      and only then ask the win condition. */
  function MoveStep(kind: PlayerClass, s: Snapshot, token: string): (out: (Result<string>, Snapshot))
    reads s.room
    // a word that is not an alias is a KeyError
    ensures out.0 == Raise(KeyError) <==> ParseDirection(token).None?
    // no exit that way: CommandCannotBeExecuted
    ensures out.0 == Raise(CommandCannotBeExecuted)
            <==> ParseDirection(token).Some? && s.room.GetNeighbor(ParseDirection(token).value).None?
    // those two fail without changing anything, and no other failure is possible
    ensures out.0.Raise? && out.0.exc != ThePlayerWonTheGame ==> out.1 == s
    ensures out.0.Raise? ==> out.0.exc == KeyError || out.0.exc == CommandCannotBeExecuted || out.0.exc == ThePlayerWonTheGame
    // otherwise the player is in the neighbour that way, which is recorded as
    // visited; the win is signalled exactly when the new state wins, and
    // otherwise the arrival in that room is reported
    ensures !(out.0.Raise? && out.0.exc != ThePlayerWonTheGame) ==>
              && ParseDirection(token).Some?
              && s.room.GetNeighbor(ParseDirection(token).value) == Some(out.1.room)
              && out.1.room.description in out.1.visited
              && s.visited <= out.1.visited && s.bag <= out.1.bag
              && (out.0 == Raise(ThePlayerWonTheGame) <==> kind.haveWon(VisitedSet(out.1.visited), out.1.bag))
              && (out.0.Ok? ==> out.0.value == Arrival(out.1.room.description))
  {
    match ParseDirection(token)
    case None => (Raise(KeyError), s)
    case Some(d) =>
      match s.room.GetNeighbor(d)
      case None => (Raise(CommandCannotBeExecuted), s)
      case Some(next) =>
        var entered := ApplyHook(next.hook, Snapshot(next, AddVisited(s.visited, next.description), s.bag));
        if kind.haveWon(VisitedSet(entered.visited), entered.bag) then (Raise(ThePlayerWonTheGame), entered)
        else (Ok(Arrival(next.description)), entered)
  }

  /** The text `ls` returns. */
  function LsText(kind: PlayerClass): (r: string)
    ensures "Available commands: " <= r
  {
    "Available commands: " + Join(kind.commands.keys, " ")
  }

  /** A name in angle brackets. */
  function Bracket(name: string): string {
    "<" + name + ">"
  }

  /** Each name in angle brackets, in the same order. */
  function Bracketed(names: seq<string>): (r: seq<string>)
    ensures |r| == |names|
    ensures forall i | 0 <= i < |names| :: r[i] == Bracket(names[i])
  {
    seq(|names|, i requires 0 <= i < |names| => Bracket(names[i]))
  }

  /** The text `where` returns. */
  function WhereText(s: Snapshot): (r: string)
    reads s.room
    ensures "Currently room: " <= r
  {
    "Currently room: " + Bracket(s.room.description) + ". \n"
    + "Available neighbors: " + Join(s.room.NeighboringDirections(), " ") + " \n"
    + "You have already visited: " + Join(Bracketed(s.visited), " ")
  }

  /** `where` names the current room, in angle brackets. */
  lemma WhereMentionsRoom(s: Snapshot)
    ensures Occurs(Bracket(s.room.description), WhereText(s))
  {
    var room := Bracket(s.room.description);
    var p1 := "Currently room: " + room;
    var p2 := p1 + ". \n" + "Available neighbors: ";
    var p3 := p2 + Join(s.room.NeighboringDirections(), " ") + " \n";
    var p4 := p3 + "You have already visited: ";
    OccursSelf(room);
    OccursRight(room, "Currently room: ", room);
    OccursLeft(room, p1, ". \n");
    OccursLeft(room, p1 + ". \n", "Available neighbors: ");
    OccursLeft(room, p2, Join(s.room.NeighboringDirections(), " "));
    OccursLeft(room, p2 + Join(s.room.NeighboringDirections(), " "), " \n");
    OccursLeft(room, p3, "You have already visited: ");
    OccursLeft(room, p4, Join(Bracketed(s.visited), " "));
  }

  /** `where` names the alias of every exit of the current room. */
  lemma WhereMentionsExits(s: Snapshot, d: Direction)
    requires s.room.GetNeighbor(d).Some?
    ensures Occurs(Alias(d), WhereText(s))
  {
    var names := s.room.NeighboringDirections();
    var exits := Join(names, " ");
    var p2 := "Currently room: " + Bracket(s.room.description) + ". \n" + "Available neighbors: ";
    var i :| 0 <= i < |names| && names[i] == Alias(d);
    JoinMentions(names, " ", i);
    OccursRight(Alias(d), p2, exits);
    OccursLeft(Alias(d), p2 + exits, " \n");
    OccursLeft(Alias(d), p2 + exits + " \n", "You have already visited: ");
    OccursLeft(Alias(d), p2 + exits + " \n" + "You have already visited: ", Join(Bracketed(s.visited), " "));
  }

  /** `where` names every visited entry, in angle brackets. */
  lemma WhereMentionsVisited(s: Snapshot, k: nat)
    requires k < |s.visited|
    ensures Occurs(Bracket(s.visited[k]), WhereText(s))
  {
    var p4 := "Currently room: " + Bracket(s.room.description) + ". \n"
              + "Available neighbors: " + Join(s.room.NeighboringDirections(), " ") + " \n"
              + "You have already visited: ";
    JoinMentions(Bracketed(s.visited), " ", k);
    OccursRight(Bracket(s.visited[k]), p4, Join(Bracketed(s.visited), " "));
  }

  /** Calling command `c` with `args`: TypeError when the number of
      arguments is wrong. */
  function Invoke(kind: PlayerClass, s: Snapshot, c: Command, args: seq<string>): (out: (Result<string>, Snapshot))
    reads s.room
    // TypeError exactly for the wrong number of arguments, and then nothing changes
    ensures out.0 == Raise(TypeError) <==> |args| != Arity(c)
    ensures |args| != Arity(c) ==> out.1 == s
    // only `move` changes the state
    ensures c != Move ==> out.1 == s
    // the queries always answer
    ensures (c == Ls || c == Where) && |args| == 0 ==> out.0.Ok?
  {
    if |args| != Arity(c) then (Raise(TypeError), s)
    else
      match c
      case Move => MoveStep(kind, s, args[0])
      case Quit => (Raise(SystemExit), s)
      case Ls => (Ok(LsText(kind)), s)
      case Where => (Ok(WhereText(s)), s)
  }

  /** `execute_user_command`: one line of input against state `s`. */
  function Step(kind: PlayerClass, s: Snapshot, line: string): (out: (Result<string>, Snapshot))
    reads s.room
    // the player stays put or walks through one of the room's exits
    ensures out.1.room == s.room || out.1.room in s.room.adjacent.entries.Values
    // nothing is ever removed from the visited entries or the bag
    ensures s.visited <= out.1.visited && s.bag <= out.1.bag
    ensures Distinct(s.visited) ==> Distinct(out.1.visited)
    // a failure other than the win signal changes nothing
    ensures out.0.Raise? && out.0.exc != ThePlayerWonTheGame ==> out.1 == s
    // a change of state happens only by entering a neighbour
    ensures out.1 != s ==> out.1.room in s.room.adjacent.entries.Values
    // the internal failures never leave the dispatcher
    ensures out.0.Raise? ==> out.0.exc != CommandCannotBeExecuted && out.0.exc != TypeError
    // a blank line has no command name to look up
    ensures (forall i | 0 <= i < |line| :: line[i] == ' ') ==> out == (Raise(IndexError), s)
  {
    match UnwrapUserInput(line)
    case Raise(e) => (Raise(e), s)
    case Ok((name, args)) =>
      match kind.commands.Get(name)
      case None => (Raise(UnsupportedCommand("Command: " + name + " not supported")), s)
      case Some(c) =>
        var (r, after) := Invoke(kind, s, c, args);
        if r == Raise(CommandCannotBeExecuted) then
          (Raise(FailedToExecuteAction(CannotExecute(line))), after)
        else if r == Raise(TypeError) then
          (Raise(FailedToExecuteAction("Failed to execute: " + line + " ")), after)
        else (r, after)
  }

  /** `move <alias>` towards an exit enters that room, records it, runs its
      hook and then either signals the win or reports the new room. */
  lemma MoveThroughExit(kind: PlayerClass, s: Snapshot, d: Direction, next: Room)
    requires kind.commands.Get("move") == Some(Move)
    requires s.room.GetNeighbor(d) == Some(next)
    ensures var entered := ApplyHook(next.hook, Snapshot(next, AddVisited(s.visited, next.description), s.bag));
            Step(kind, s, "move " + Alias(d))
            == if kind.haveWon(VisitedSet(entered.visited), entered.bag) then (Raise(ThePlayerWonTheGame), entered)
               else (Ok(Arrival(next.description)), entered)
  {
    assert "move " + Alias(d) == "move" + " " + Alias(d);
    UnwrapWordArgument("move", Alias(d));
  }

  /** Proof helper: the `move` line for each direction, spelled out. */
  lemma MoveWords()
    ensures "move " + Alias(North) == "move up" && "move " + Alias(South) == "move down"
    ensures "move " + Alias(East) == "move right" && "move " + Alias(West) == "move left"
  {
  }

  /** `move <alias>` where the room has no exit that way fails with the
      line quoted back, and the player stays where they are. */
  lemma MoveBlocked(kind: PlayerClass, s: Snapshot, d: Direction)
    requires kind.commands.Get("move") == Some(Move)
    requires s.room.GetNeighbor(d) == None
    ensures Step(kind, s, "move " + Alias(d))
            == (Raise(FailedToExecuteAction(CannotExecute("move " + Alias(d)))), s)
  {
    assert "move " + Alias(d) == "move" + " " + Alias(d);
    UnwrapWordArgument("move", Alias(d));
  }

  /** A direction word that is not one of the four aliases is a KeyError
      that the dispatcher does not catch. */
  lemma MoveUnknownWord(kind: PlayerClass, s: Snapshot, w: string)
    requires kind.commands.Get("move") == Some(Move)
    requires w != "" && ' ' !in w && forall d :: w != Alias(d)
    ensures Step(kind, s, "move " + w) == (Raise(KeyError), s)
  {
    assert "move " + w == "move" + " " + w;
    UnwrapWordArgument("move", w);
  }

  /** A known command called with the wrong number of arguments is
      reported as a failed action quoting the line, and nothing changes
      (`ls foo`, `quit now`, `move up down`). */
  lemma WrongArity(kind: PlayerClass, s: Snapshot, line: string, name: string, args: seq<string>, c: Command)
    requires UnwrapUserInput(line) == Ok((name, args))
    requires kind.commands.Get(name) == Some(c) && |args| != Arity(c)
    ensures Step(kind, s, line) == (Raise(FailedToExecuteAction("Failed to execute: " + line + " ")), s)
  {
  }

  /** Every game exception a line raises, apart from the win signal,
      carries a non-empty message, so the loop never writes an empty line
      for a rejected command. */
  lemma StepMessages(kind: PlayerClass, s: Snapshot, line: string)
    ensures var r := Step(kind, s, line).0;
            r.Raise? && IsZuulException(r.exc) && r.exc != ThePlayerWonTheGame ==> Message(r.exc) != ""
  {
  }

  /** `move` without a direction is a call with the wrong number of
      arguments, reported as a failed action. */
  lemma MoveWithoutDirection(kind: PlayerClass, s: Snapshot)
    requires kind.commands.Get("move") == Some(Move)
    ensures Step(kind, s, "move") == (Raise(FailedToExecuteAction("Failed to execute: move ")), s)
  {
    UnwrapWord("move");
    assert "Failed to execute: " + "move" + " " == "Failed to execute: move ";
  }

  /** A name the class does not define is unsupported, whatever follows it. */
  lemma UnknownCommand(kind: PlayerClass, s: Snapshot, w: string, rest: string)
    requires w != "" && ' ' !in w && w !in kind.commands.entries
    ensures Step(kind, s, w) == (Raise(UnsupportedCommand("Command: " + w + " not supported")), s)
    ensures Step(kind, s, w + " " + rest).0 == Raise(UnsupportedCommand("Command: " + w + " not supported"))
  {
    UnwrapWord(w);
    SplitAfterWord(w, rest);
    var u := UnwrapUserInput(w + " " + rest);
    assert Split(w + " " + rest)[0] == w;
    assert Tokens(w + " " + rest)[0] == w;
    assert u.Ok? && u.value.0 == w;
  }

  /** `where` answers without changing anything. */
  lemma WhereQuery(kind: PlayerClass, s: Snapshot)
    requires kind.commands.Get("where") == Some(Where)
    ensures Step(kind, s, "where") == (Ok(WhereText(s)), s)
  {
    UnwrapWord("where");
  }

  /** `ls` answers with the command listing without changing anything. */
  lemma LsQuery(kind: PlayerClass, s: Snapshot)
    requires kind.commands.Get("ls") == Some(Ls)
    ensures Step(kind, s, "ls") == (Ok(LsText(kind)), s)
  {
    UnwrapWord("ls");
  }

  /** The `ls` listing splits back into exactly the class's command names,
      in table order. */
  lemma LsListsCommands(kind: PlayerClass)
    requires kind.commands.Valid() && kind.commands.Get("ls") == Some(Ls)
    requires forall i | 0 <= i < |kind.commands.keys| :: ' ' !in kind.commands.keys[i]
    ensures LsText(kind)[..20] == "Available commands: "
    ensures Split(LsText(kind)[20..]) == kind.commands.keys
  {
    assert "ls" in kind.commands.keys;
    var listing := Join(kind.commands.keys, " ");
    assert LsText(kind)[20..] == listing;
    SplitJoin(kind.commands.keys);
  }

  /** `quit` ends the program. */
  lemma QuitExits(kind: PlayerClass, s: Snapshot)
    requires kind.commands.Get("quit") == Some(Quit)
    ensures Step(kind, s, "quit") == (Raise(SystemExit), s)
  {
    UnwrapWord("quit");
  }

  // ------------------------------------------------- the Player base class

  /** A stand-in for the body of the base Player class: its four user
      commands, in order, after one plain attribute. The real body has more
      plain attributes before `move`; AddNoCommands shows that attributes
      other than user commands leave the table as it is. */
  const PLAYER_ATTRIBUTES: Dict<string, Attribute> :=
    Dict(["have_won", "move", "quit", "ls", "where"],
         map["have_won" := PlainAttribute, "move" := UserCommand(Move), "quit" := UserCommand(Quit),
             "ls" := UserCommand(Ls), "where" := UserCommand(Where)])

  const BASE_COMMANDS: CommandTable :=
    Dict(["move", "quit", "ls", "where"], map["move" := Move, "quit" := Quit, "ls" := Ls, "where" := Where])

  lemma PlayerAttributesValid()
    ensures PLAYER_ATTRIBUTES.Valid()
  {
  }

  /** The four user commands assigned in order to an empty table. */
  function BaseCommandsByPut(): (t: CommandTable)
    ensures t.Valid()
  {
    Empty().Put("move", Move).Put("quit", Quit).Put("ls", Ls).Put("where", Where)
  }

  /** The table after the first two assignments. */
  lemma MoveThenQuit()
    ensures Empty().Put("move", Move).Put("quit", Quit) == Dict(["move", "quit"], map["move" := Move, "quit" := Quit])
  {
    var e: CommandTable := Empty();
    assert e.Put("move", Move) == Dict(["move"], map["move" := Move]);
    assert "quit" != "move";
  }

  /** The table after the last two assignments. */
  lemma ThenLsAndWhere()
    ensures Dict(["move", "quit"], map["move" := Move, "quit" := Quit]).Put("ls", Ls).Put("where", Where) == BASE_COMMANDS
  {
    var d2: CommandTable := Dict(["move", "quit"], map["move" := Move, "quit" := Quit]);
    assert "ls" != "move" && "ls" != "quit";
    assert d2.Put("ls", Ls) == Dict(["move", "quit", "ls"], map["move" := Move, "quit" := Quit, "ls" := Ls]);
    assert "where" != "move" && "where" != "quit" && "where" != "ls";
  }

  lemma BaseCommandsByPutIsBase()
    ensures BaseCommandsByPut() == BASE_COMMANDS
  {
    MoveThenQuit();
    ThenLsAndWhere();
  }

  /** The first three names of the base class body leave `move` and
      `quit` in the table. */
  lemma PlayerBodyFirstThree()
    ensures AddCommands(Empty(), ["have_won", "move", "quit"], PLAYER_ATTRIBUTES.entries)
            == Empty().Put("move", Move).Put("quit", Quit)
  {
    var m := PLAYER_ATTRIBUTES.entries;
    var t0: CommandTable := Empty();
    assert AddCommands(t0, [], m) == t0;
    AddCommandsSnoc(t0, [], "have_won", m);
    assert [] + ["have_won"] == ["have_won"];
    AddCommandsSnoc(t0, ["have_won"], "move", m);
    assert ["have_won"] + ["move"] == ["have_won", "move"];
    AddCommandsSnoc(t0, ["have_won", "move"], "quit", m);
    assert ["have_won", "move"] + ["quit"] == ["have_won", "move", "quit"];
  }

  /** The fourth name, `ls`, follows them. */
  lemma PlayerBodyFirstFour()
    ensures AddCommands(Empty(), ["have_won", "move", "quit", "ls"], PLAYER_ATTRIBUTES.entries)
            == Empty().Put("move", Move).Put("quit", Quit).Put("ls", Ls)
  {
    PlayerBodyFirstThree();
    AddCommandsSnoc(Empty(), ["have_won", "move", "quit"], "ls", PLAYER_ATTRIBUTES.entries);
    assert ["have_won", "move", "quit"] + ["ls"] == ["have_won", "move", "quit", "ls"];
  }

  lemma PlayerBodyAddsInOrder()
    ensures AddCommands(Empty(), PLAYER_ATTRIBUTES.keys, PLAYER_ATTRIBUTES.entries) == BaseCommandsByPut()
  {
    PlayerBodyFirstFour();
    AddCommandsSnoc(Empty(), ["have_won", "move", "quit", "ls"], "where", PLAYER_ATTRIBUTES.entries);
    assert ["have_won", "move", "quit", "ls"] + ["where"] == PLAYER_ATTRIBUTES.keys;
  }

  /** The base class gets exactly its four user commands, in the order its
      body defines them; `have_won` is not a command. */
  lemma PlayerCommandTable()
    ensures PLAYER_ATTRIBUTES.Valid() && CommandTableOf([], PLAYER_ATTRIBUTES) == BASE_COMMANDS
  {
    PlayerAttributesValid();
    assert InheritedTable([]) == Empty();
    PlayerBodyAddsInOrder();
    BaseCommandsByPutIsBase();
  }

  /** A subclass of the base class whose body declares no user command
      (such as one that only supplies `have_won`) has the base table. */
  lemma SubclassInheritsCommands(attrs: Dict<string, Attribute>)
    requires attrs.Valid() && forall n | n in attrs.keys :: attrs.entries[n] == PlainAttribute
    ensures CommandTableOf([Some(BASE_COMMANDS)], attrs) == BASE_COMMANDS
  {
    BaseCommandsByPutIsBase();
    SingleBaseTable(BASE_COMMANDS);
    AddNoCommands(BASE_COMMANDS, attrs.keys, attrs.entries);
  }

  class Player {
    const world: World
    const kind: PlayerClass
    var room: Room
    var visited: seq<string>
    var bag: seq<string>

    ghost predicate Valid()
      reads this, world, world.rooms.Values
    {
      world.Valid() && room in world.rooms.Values && Distinct(visited) && kind.commands.Valid()
    }

    function State(): Snapshot
      reads this
    {
      Snapshot(room, visited, bag)
    }

    /** A player standing in `start`, which counts as visited (by its
        description), with an empty bag. */
    constructor(world: World, start: Room, kind: PlayerClass)
      requires world.Valid() && start in world.rooms.Values && kind.commands.Valid()
      ensures Valid() && this.world == world && this.kind == kind
      ensures State() == Snapshot(start, [start.description], [])
    {
      this.world := world;
      this.kind := kind;
      room := start;
      visited := [start.description];
      bag := [];
    }

    /** `Player(world, start_room)`: RoomDoesNotExist for an unknown start
        room. */
    static method Create(world: World, startName: string, kind: PlayerClass) returns (r: Result<Player>)
      requires world.Valid() && kind.commands.Valid()
      ensures startName !in world.rooms ==> r == Raise(RoomDoesNotExist("Room " + startName + " does not exist."))
      ensures startName in world.rooms ==>
        && r.Ok? && fresh(r.value) && r.value.Valid()
        && r.value.world == world && r.value.kind == kind
        && r.value.State() == Snapshot(world.rooms[startName], [world.rooms[startName].description], [])
    {
      var found := world.GetRoom(startName);
      if found.Raise? {
        return Raise(found.exc);
      }
      var p := new Player(world, found.value, kind);
      r := Ok(p);
    }

    method AddToBag(item: string)
      modifies this
      ensures bag == old(bag) + [item]
      ensures room == old(room) && visited == old(visited)
    {
      bag := bag + [item];
    }

    /** `room.update_player(self)`. */
    method RunEnterHook(r: Room)
      modifies this
      ensures State() == ApplyHook(r.hook, old(State()))
    {
      match r.hook
      case NoEffect =>
      case AddToBag(item) =>
        AddToBag(item);
    }

    method Move(token: string) returns (r: Result<string>)
      requires Valid()
      modifies this
      ensures Valid()
      ensures (r, State()) == MoveStep(kind, old(State()), token)
    {
      var direction := ParseDirection(token);
      if direction.None? {
        return Raise(KeyError);
      }
      var next := room.GetNeighbor(direction.value);
      if next.None? {
        return Raise(CommandCannotBeExecuted);
      }
      assert next.value in room.adjacent.entries.Values;
      room := next.value;
      visited := AddVisited(visited, room.description);
      RunEnterHook(room);
      if kind.haveWon(VisitedSet(visited), bag) {
        return Raise(ThePlayerWonTheGame);
      }
      r := Ok(Arrival(room.description));
    }

    method Ls() returns (r: Result<string>)
      ensures r == Ok(LsText(kind))
    {
      r := Ok("Available commands: " + Join(kind.commands.keys, " "));
    }

    /** `where`: the text names the current room, every exit's alias and
        every visited entry. */
    method Where() returns (r: Result<string>)
      requires Valid()
      ensures r == Ok(WhereText(State()))
      ensures Occurs(Bracket(room.description), r.value)
      ensures forall d | room.GetNeighbor(d).Some? :: Occurs(Alias(d), r.value)
      ensures forall k | 0 <= k < |visited| :: Occurs(Bracket(visited[k]), r.value)
    {
      r := Ok(WhereText(State()));
      WhereMentionsRoom(State());
      forall d | room.GetNeighbor(d).Some? ensures Occurs(Alias(d), r.value) {
        WhereMentionsExits(State(), d);
      }
      forall k | 0 <= k < |visited| ensures Occurs(Bracket(visited[k]), r.value) {
        WhereMentionsVisited(State(), k);
      }
    }

    method ExecuteUserCommand(line: string) returns (r: Result<string>)
      requires Valid()
      modifies this
      ensures Valid()
      ensures (r, State()) == Step(kind, old(State()), line)
    {
      var unwrapped := UnwrapUserInput(line);
      if unwrapped.Raise? {
        return Raise(unwrapped.exc);
      }
      var (name, args) := unwrapped.value;
      var command := kind.commands.Get(name);
      if command.None? {
        return Raise(UnsupportedCommand("Command: " + name + " not supported"));
      }
      var c := command.value;
      if |args| != Arity(c) {
        r := Raise(TypeError);
      } else {
        match c
        case Move =>
          r := Move(args[0]);
        case Quit =>
          r := Raise(SystemExit);
        case Ls =>
          r := Ls();
        case Where =>
          r := Where();
      }
      if r == Raise(CommandCannotBeExecuted) {
        r := Raise(FailedToExecuteAction(CannotExecute(line)));
      } else if r == Raise(TypeError) {
        r := Raise(FailedToExecuteAction("Failed to execute: " + line + " "));
      }
    }
  }
}
