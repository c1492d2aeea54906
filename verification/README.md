# zuu — a model of the text-adventure engine

This project models the engine of a small text adventure in the style of
"World of Zuul". A **world** is a registry of named **rooms**. Each room has a
description and an ordered table of exits, one per compass **direction**.
Connecting two rooms creates the exit and its reverse. A **player** stands in
one room, remembers the rooms they have visited and carries a bag of items.
The player answers the user commands `move <alias>`, `quit`, `ls` and `where`.
Every player class collects its commands from its base classes and its own
body. The **game** loop reads one line at a time and writes what the
command returned, or the message of the game exception it raised. It stops
when the player signals the win. Two games are built on the engine:

- the *mentoring* game: eight rooms, a restaurant that hands out a
  textbook, and a win condition that needs the exam room, the mentoring room
  and the textbook;
- the *dummy* game: three rooms, won on reaching classroom1.

The Dafny modules follow the program's files:

- `Dicts`: Python's insertion-ordered `dict`;
- `Exceptions`: the exception kinds, as values;
- `Rooms`: `impl/room.py`;
- `Worlds`: `impl/world.py`;
- `Commands`: tokenising a line, the direction words and the metaclass's
  command table;
- `Players`: `impl/player.py`;
- `Games`: `impl/game.py`;
- `Mentoring` and `MentoringRuns`: `mentoring.py` and the mentoring test's
  winning run;
- `DummyGame`: `impl/dummygame.py`.

`Room`, `World`, `Player` and `Game` are classes whose methods update their
fields in place. Each `Player` method is proved equal to a pure function of
the old state: `Step` for one line and `MoveStep` for `move`. `Game.Play` is
proved equal to the pure run `Run` over the same input. The properties of
the engine are proved about those functions.

Two errors escape the game loop, and the model keeps both. `_DIRECTIONS`
holds only `up`, `down`, `left` and `right`, so any other direction word,
`north` included, is a KeyError (Players.MoveUnknownWord). A line of spaces
is an IndexError (Players.Step).

## Model

| member | source | states |
|---|---|---|
| Exceptions.Message | impl/game.py:93-94 | `str(ex)` of a game exception is the message it was raised with; CommandCannotBeExecuted and the win signal carry none |
| Dicts.Dict.Put | impl/room.py:71 | assigning a key makes it map to the value; every other key keeps its value; a new key goes last and an existing key keeps its position |
| Dicts.Dict.Remove | impl/room.py:80 | deleting a present key leaves it unmapped; every other key keeps its value; the key order is the old order with that one key cut out at its position |
| Dicts.WithoutAppend | impl/room.py:80 | removing an item from two sequences put together removes it from each, and keeps the parts in order |
| Dicts.WithoutCount | impl/room.py:80 | removing an item keeps the number of occurrences of every other item, and leaves none of it |
| Dicts.WithoutAt | impl/room.py:80 | in a sequence without duplicates, removing the item at a position leaves the items before it, then those after it |
| Dicts.Merge | impl/player.py:58 | `{**a, **b}`: b's values win; the keys are a's keys in their order, then b's keys that a lacks, in b's order |
| Dicts.PutAllKeys | impl/player.py:58 | assigning keys one after another keeps the existing keys in place and appends each new key where it is first assigned |
| Dicts.MergeIntoEmpty | impl/player.py:55-58 | merging a table into the empty table gives that table unchanged, key order included |
| Rooms.Opposite | impl/room.py:20-33 | the opposite direction is never the direction itself |
| Rooms.OppositeInvolution | impl/room.py:20-33 | taking the opposite twice gives the direction back |
| Rooms.Alias | impl/room.py:35-44 | a direction's user-facing name is a non-empty word without spaces, so it survives the command-line split |
| Rooms.AliasInjective | impl/room.py:35-44 | the four user-facing direction names are pairwise different |
| Rooms.AliasesExact | impl/room.py:96-106 | a direction's name is listed exactly when the direction is, and no name twice when no direction is |
| Rooms.Room.constructor | impl/room.py:57-63 | a new room has its description and no exits |
| Rooms.Room.GetNeighbor | impl/room.py:108-118 | the neighbour is present exactly when an exit is recorded that way, and then it is the recorded room |
| Rooms.Room.AddNeighbor | impl/room.py:65-71 | the exit is set or overwritten; every other direction keeps its neighbour |
| Rooms.Room.RemoveNeighbor | impl/room.py:73-80 | KeyError, with nothing changed, when there is no exit that way; otherwise the exit is gone and the others are kept |
| Rooms.Room.NeighboringDirections | impl/room.py:96-106 | one name per exit, in the order the exits were made; a name is listed exactly when that exit exists; no duplicates |
| Worlds.World.constructor | impl/world.py:13-15 | a new world has no rooms |
| Worlds.World.AddRoom | impl/world.py:17-33 | RoomAlreadyExists, with the registry unchanged, for a taken name; otherwise a fresh room with the description and no exits, under that name only; every room links only into the world |
| Worlds.World.GetRoom | impl/world.py:35-48 | the room exactly when the name is registered; otherwise RoomDoesNotExist naming it |
| Worlds.World.ConnectRooms | impl/world.py:50-62 | an unknown first or second name raises RoomDoesNotExist, and nothing changes; otherwise the first room leads to the second and the second leads back the opposite way; every other room keeps its exits |
| Worlds.World.ExitInside | impl/world.py:50-62 | following any exit of a room of a world leads to a room of the same world |
| Commands.Split | impl/player.py:222 | splitting on single spaces gives at least one piece, and no piece holds a space |
| Commands.JoinSplit | impl/player.py:222 | joining the single-space pieces with a space gives the line back |
| Commands.JoinMentions | impl/player.py:264-266 | every piece occurs, as a slice, in the pieces joined with a separator |
| Commands.SplitBlank | impl/player.py:222 | every piece is empty exactly when the line is nothing but spaces |
| Commands.SplitJoin | impl/player.py:252 | space-free words joined with spaces split back into the same words |
| Commands.SplitWord | impl/player.py:222 | a word without spaces is one piece |
| Commands.SplitAfterWord | impl/player.py:222 | a space-free word followed by a space is split off as the first piece |
| Commands.Tokens | impl/player.py:222 | every token is non-empty and holds no space |
| Commands.SplitSpace | impl/player.py:222 | the pieces of a line cut at a space are the pieces before it followed by the pieces after it |
| Commands.TokensSpace | impl/player.py:222 | the tokens of a line cut at a space are the tokens before it followed by the tokens after it, in order |
| Commands.TokensBlank | impl/player.py:222 | a line of spaces only has no tokens |
| Commands.TokensTrailing | impl/player.py:222 | a word followed by any number of spaces is the only token |
| Commands.TokensPadded | impl/player.py:222 | a word between runs of spaces, of any length, is the only token |
| Commands.UnwrapUserInput | impl/player.py:212-223 | IndexError exactly for a line of spaces only; otherwise the first token is the name and the remaining tokens are the arguments |
| Commands.UnwrapWord | impl/player.py:212-223 | a single word is a command without arguments |
| Commands.UnwrapWordArgument | impl/player.py:212-223 | a word, a space and a second word are a command with one argument |
| Commands.UnwrapPaddedWord | impl/player.py:212-223 | a word with spaces before and after it is a command without arguments |
| Commands.UnwrapPaddedWordArgument | impl/player.py:212-223 | leading, trailing and repeated spaces make no difference: the first word is the command and the second its one argument |
| Commands.ParseDirection | impl/player.py:83-88 | a token gives a direction exactly when it is that direction's name (up, down, left, right); any other word gives none |
| Commands.InheritedTable | impl/player.py:55-58 | the bases' tables merged in order form a well-formed table |
| Commands.InheritedTableGet | impl/player.py:55-58 | a name inherits the command of the last base whose table has it |
| Commands.AddCommands | impl/player.py:60-62 | adding the body's user commands keeps the table well formed |
| Commands.AddCommandsGet | impl/player.py:60-62 | inherited names keep their positions; a user command of the body overrides; every other name keeps its inherited entry |
| Commands.AddCommandsSnoc | impl/player.py:60-62 | one more body attribute adds its command when it is a user command, and nothing otherwise |
| Commands.AddNoCommands | impl/player.py:60-62 | a body without user commands leaves the table unchanged |
| Commands.SingleBaseTable | impl/player.py:55-58 | a class with one base inherits that base's table as it is |
| Commands.CommandTableOf | impl/player.py:47-62 | a class's command table is well formed |
| Commands.CommandTableGet | impl/player.py:47-62 | a class's own user commands win; every other name gets the last base's entry; no inherited name is lost |
| Commands.BuildCommandTable | impl/player.py:47-62 | the metaclass loops build exactly the table that CommandTableOf describes |
| Players.HasAlreadyVisited | impl/player.py:125-137 | true exactly when every given name has been visited |
| Players.IsInBag | impl/player.py:115-123 | true exactly when the item is one of the bag's entries |
| Players.AddVisited | impl/player.py:235 | the visited set gains exactly the new entry; earlier entries stay in order; no entry is recorded twice |
| Players.ApplyHook | impl/room.py:82-90 | a plain room changes nothing; a room that hands out an item appends it to the bag; room and visited are untouched |
| Players.Invoke | impl/player.py:29-41 | a call with the wrong number of arguments is a TypeError and changes nothing; only `move` changes the state; `ls` and `where` without arguments answer |
| Players.MoveStep | impl/player.py:225-241 | KeyError exactly for a word that is not a direction name; CommandCannotBeExecuted exactly where there is no exit; a failure changes nothing; a successful step enters the neighbour, records it, keeps visited and bag as prefixes, and signals the win exactly when the new state has won |
| Players.LsText | impl/player.py:248-252 | the listing starts with `Available commands: ` |
| Players.Bracketed | impl/player.py:265-266 | one entry per visited name, each that name in angle brackets |
| Players.WhereText | impl/player.py:254-268 | the text starts with `Currently room: ` |
| Players.WhereMentionsRoom | impl/player.py:254-268 | the `where` text holds the room's description in angle brackets |
| Players.WhereMentionsExits | impl/player.py:254-268 | the `where` text holds the name of every direction the room has an exit in |
| Players.WhereMentionsVisited | impl/player.py:254-268 | the `where` text holds every visited name in angle brackets |
| Players.Step | impl/player.py:167-193 | the player stays or walks through one exit; nothing is removed from visited or the bag; a failure other than the win changes nothing; CommandCannotBeExecuted and TypeError never escape; a blank line is IndexError |
| Players.MoveThroughExit | impl/player.py:225-239 | moving through an exit enters the room, records it and runs its hook, then either signals the win or reports the arrival |
| Players.MoveBlocked | impl/player.py:240-241 | moving where there is no exit fails with the line quoted back, and the player stays put |
| Players.MoveUnknownWord | impl/player.py:231 | a direction word that is not one of the four names is a KeyError that nobody catches |
| Players.MoveWithoutDirection | impl/player.py:190-193 | `move` without an argument is reported as a failure to execute |
| Players.WrongArity | impl/player.py:190-193 | any known command given the wrong number of arguments is reported as a failure to execute that quotes the line, and changes nothing |
| Players.StepMessages | impl/game.py:93-94 | every game exception a line raises, apart from the win, carries a non-empty message, so the loop never writes an empty line for it |
| Players.UnknownCommand | impl/player.py:195-210 | a name outside the class's table is UnsupportedCommand, whatever follows it |
| Players.WhereQuery | impl/player.py:254-268 | `where` answers with the room, its exits and the visited rooms, and changes nothing |
| Players.LsQuery | impl/player.py:248-252 | `ls` answers with the listing of commands, and changes nothing |
| Players.LsListsCommands | impl/player.py:248-252 | the `ls` listing splits back into exactly the class's command names, in table order |
| Players.QuitExits | impl/player.py:243-246 | `quit` ends the program with SystemExit, and changes nothing |
| Players.PlayerCommandTable | impl/player.py:44-62 | the base Player class gets exactly move, quit, ls and where, in that order; `have_won` is not a command |
| Players.SubclassInheritsCommands | impl/player.py:55-62 | a subclass whose body declares no user command has the base class's table |
| Players.Player.constructor | impl/player.py:96-106 | a new player stands in the start room, has visited only it and carries nothing |
| Players.Player.Create | impl/player.py:139-146 | an unknown start room raises RoomDoesNotExist; otherwise a fresh, valid player in that room |
| Players.Player.AddToBag | impl/player.py:108-113 | the item is appended to the bag; room and visited rooms are unchanged |
| Players.Player.RunEnterHook | impl/room.py:82-90 | the player's new state is the room's hook applied to the old state |
| Players.Player.Move | impl/player.py:225-241 | the result and the new state are those of MoveStep on the old state, and the player stays valid |
| Players.Player.Ls | impl/player.py:248-252 | the answer is the `ls` listing of the class's commands |
| Players.Player.Where | impl/player.py:254-268 | the answer names the current room in angle brackets, every direction it has an exit in and every visited room in angle brackets; nothing changes |
| Players.Player.ExecuteUserCommand | impl/player.py:167-193 | the result and the new state are those of Step on the old state, and the player stays valid |
| Games.Run | impl/game.py:86-96 | at most the input is read; one message per line, except the line whose exception escapes; a win ends with the winning message; only non-game exceptions escape; the player stays in the world and forgets nothing |
| Games.Turn | impl/game.py:87-96 | one turn reads one line and keeps every promise of Run |
| Games.RunStep | impl/game.py:86-96 | one turn in terms of the player's answer and new state: the win ends the run with the winning message, a non-game exception escapes without output, anything else is written and the run goes on from the new state, which stays in the world |
| Games.RunStopsReading | impl/game.py:86-97 | once the loop stops, the lines after the last one it read make no difference |
| Games.RunAppend | impl/game.py:86-96 | more input after an exhausted run continues from where that run left off |
| Games.RejectedLineChangesNothing | impl/game.py:93-94 | a line rejected with a game exception writes its message, and the game goes on from the same state |
| Games.AcceptedLine | impl/game.py:95-96 | an executed line writes its answer, and the game goes on from the state it left |
| Games.WinningLine | impl/game.py:90-92 | a winning line writes the winning message and ends the game, whatever input remains |
| Games.QueryLine | impl/game.py:95-96 | a line answered without a change of state writes the answer, and the game goes on from the same state |
| Games.MoveLine | impl/player.py:225-241 | `move` through an exit, as one turn: the win ends the game, otherwise the arrival message and the game goes on from the room entered |
| Games.BlockedLine | impl/player.py:187-189 | `move` where there is no exit, as one turn: the failure message, and the game goes on unchanged |
| Games.Game.constructor | impl/game.py:33-49 | the game is bound to its player |
| Games.Game.TakeTurn | impl/game.py:88-96 | one pass of the loop: the player executes the first line, and the run over the input is that turn followed by the run over the rest from the state it left |
| Games.Game.Play | impl/game.py:78-97 | the loop writes, reads and stops exactly as the run over the same input, and leaves the player in that run's last state |
| Mentoring.HaveWon | mentoring.py:19-30 | won exactly when the exam room and the mentoring room have been visited and a textbook is in the bag |
| Mentoring.MentoringPlayerCommands | mentoring.py:16-30 | MentoringPlayer's command table is the base class's table |
| Mentoring.MentoringLookups | mentoring.py:16-30 | MentoringPlayer answers to move, where and ls |
| Mentoring.AddFirstRooms | mentoring.py:53-67 | the first four rooms are registered under their names, with their descriptions and hooks, distinct and without exits |
| Mentoring.AddLastRooms | mentoring.py:69-83 | the last four rooms are registered the same way, and the earlier rooms are kept |
| Mentoring.ConnectTheater | mentoring.py:85-88 | the lecture theater's three exits and their reverses, in connection order |
| Mentoring.ConnectCampus | mentoring.py:89-96 | the restaurant, class rooms, reception and exam room are linked both ways, and the other rooms keep their exits |
| Mentoring.MakeTheWorld | mentoring.py:45-98 | the world built has exactly the mentoring map, and the game starts in the lecture theater |
| MentoringRuns.LayoutExits | mentoring.py:85-96 | the exits the winning walk uses, and the missing exit south of the mentoring room |
| MentoringRuns.LayoutRooms | mentoring.py:53-83 | the descriptions and hooks of the rooms the winning walk passes |
| MentoringRuns.NotYetWon | mentoring.py:27-28 | without the exam room among the visited rooms, the game is not won |
| MentoringRuns.Walk | impl/player.py:225-239 | a move that does not win writes the arrival message, and the game goes on from the room entered |
| MentoringRuns.Enter | impl/player.py:233-239 | entering a new room before the exam room records it and writes the arrival message |
| MentoringRuns.Return | impl/player.py:233-239 | going back into a visited room before the exam room records nothing new and writes the arrival message |
| MentoringRuns.WinningWalk | impl/player.py:237-238 | a move that completes the win condition writes the winning message and ends the game |
| MentoringRuns.Bump | impl/player.py:240-241 | a move into a wall writes the failure message, and nothing changes |
| MentoringRuns.Look | impl/player.py:254-268 | `where` writes the where-text, and the game goes on unchanged |
| MentoringRuns.Listing | impl/player.py:248-252 | `ls` writes the command listing, and the game goes on unchanged |
| MentoringRuns.OpeningMoves | tests/mentoring_test.py:13-16 | lines 1–4 write the listing, the where-text, the restaurant arrival and the theater arrival, and pick up the textbook |
| MentoringRuns.MiddleMoves | tests/mentoring_test.py:17-20 | lines 5–8 write the where-text, the mentoring-room arrival, the refused `move down` and the theater arrival |
| MentoringRuns.ClosingMoves | tests/mentoring_test.py:21-24 | lines 9–12 reach the exam room through class_room2 and the reception, and win with two textbooks in the bag |
| MentoringRuns.TourTrace | tests/mentoring_test.py:12-26 | the whole winning run's trace, stretch by stretch |
| MentoringRuns.Tour | tests/mentoring_test.py:97-100 | the winning run reads twelve lines, writes twelve messages, ends won with the winning message last and stands in the exam room |
| MentoringRuns.WinningSequenceWins | tests/mentoring_test.py:97-100 | on the mentoring map, the test's sequence is won on its twelfth line, the thirteenth is never read, and the last message is the winning message |
| DummyGame.HaveWon | impl/dummygame.py:18-26 | won exactly when classroom1 has been visited; the bag plays no part |
| DummyGame.DummyPlayerCommands | impl/dummygame.py:15-26 | DummyPlayer's command table is the base class's table |
| DummyGame.DummyMove | impl/dummygame.py:15-26 | DummyPlayer answers to move |
| DummyGame.MakeTheWorld | impl/dummygame.py:29-51 | the world built has exactly the dummy map, and the game starts in the lecture theater |
| DummyGame.TheaterExits | impl/dummygame.py:49-50 | the lecture theater leads up to the pub and right to classroom1, and has no exit down or left |
| DummyGame.RightWins | impl/dummygame.py:50 | `move right` from the lecture theater wins at once, and no further line is read |
| DummyGame.UpToPub | impl/dummygame.py:49 | `move up` reaches the pub without winning, and the game goes on from there |
| DummyGame.DownBlocked | impl/dummygame.py:29-51 | `move down` from the lecture theater is refused, and nothing changes |
| DummyGame.FirstMoves | impl/dummygame.py:29-51 | from the start of the dummy map, `move right` wins, `move up` reaches the pub and `move down` is refused |

## Left out

- Console input and output: `read_from_stdio`, `write_to_stdio` and
  `main` in `mentoring.py` and `impl/dummygame.py` are not modelled. The
  reader is a sequence of lines and the writer is the sequence of messages
  written.
- Running out of input is the ending `InputExhausted`. The real reader raises
  instead: `EOFError` at the console, and `IndexError` in the test's reader.
  With the test's `index > len(lines)` guard, `lines[index]` itself raises
  IndexError at `index == len(lines)`, on the same call where a `>=` guard
  would; the guard would fire only one call later. The winning run never
  reaches either.
- `Game.exit` and `sys.exit` are not modelled as process exits. A win ends
  the run with the ending `Won`. `quit` raises `SystemExit`, which is not a
  game exception and ends the run as `Escaped(SystemExit)`.
- The `assert callable(...)` checks of `Game.bind_input_reader`,
  `Game.bind_output_writer` and `Game.play` are not modelled: the sequences
  of lines and messages always exist.
- The metaclass is not modelled as reflection. `UserCommand` becomes the
  attribute kind `UserCommand(command)`. A class body becomes an ordered
  table of attributes. `PlayerMeta.__init__` becomes the table computation
  `CommandTableOf` and the method `BuildCommandTable`.
- `UserCommand.__call__` converting the result to `str` is implicit: every
  command's answer is already a string.
- Players.WhereText: the visited rooms are listed in the order they were
  first entered. The program keeps them in a Python `set`, whose iteration
  order is unspecified.
- The base class's `have_won` (`raise NotImplemented`, which fails with
  `TypeError`) is not modelled. Every player class supplies its own win
  condition.
- A room's `update_player` override is the data value `EnterHook`
  (nothing, or one item into the bag). Those are the only two behaviours the
  program defines.
- `Room.__str__` is the room's `description` field. The `current_room`
  property is the `room` field. The numeric values of the `Direction` enum
  play no part and are not modelled.
- `World.add_room` with a room class becomes a room with that class's hook.
- The game runs use the room facts that `Layout` fixes. LayoutExits and
  LayoutRooms extract them from `Layout`, which is what `MakeTheWorld`
  builds.
- Mentoring.MakeTheWorld is written as four helper methods (two batches of
  `add_room`, two batches of `connect_rooms`), in the program's call order.
