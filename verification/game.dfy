/** The game loop: read a line, let the player execute it, write what it
    returned or the message of the game exception it raised, and stop at
    the win signal. The input source and the output sink are a sequence of
    lines and the sequence of written messages. */
module Games {
  import opened Dicts
  import opened Exceptions
  import opened Rooms
  import opened Worlds
  import opened Commands
  import opened Players

  /** The message written when the player wins. */
  const WINNING_MSG := "You won!"

  /** How a run stops: the win (after which the program exits), an
      exception that is not a game exception escaping the loop (the
      `SystemExit` of `quit` among them), or no more input. */
  datatype Ending = Won | Escaped(exc: Exception) | InputExhausted

  /** What a run writes, how many lines it reads, how it stops and the
      player's state at that point. */
  datatype Trace = Trace(output: seq<string>, consumed: nat, ending: Ending, last: Snapshot)

  /** `t` preceded by messages already written and lines already read. */
  function Prepend(output: seq<string>, consumed: nat, t: Trace): (r: Trace)
    ensures r.output == output + t.output && r.consumed == consumed + t.consumed
    ensures r.ending == t.ending && r.last == t.last
  {
    Trace(output + t.output, consumed + t.consumed, t.ending, t.last)
  }

  lemma PrependPrepend(o1: seq<string>, c1: nat, o2: seq<string>, c2: nat, t: Trace)
    ensures Prepend(o1, c1, Prepend(o2, c2, t)) == Prepend(o1 + o2, c1 + c2, t)
  {
    assert o1 + (o2 + t.output) == (o1 + o2) + t.output;
  }

  /** Three turns that each write one message make one stretch of three. */
  lemma Prepend3(a: string, b: string, c: string, t: Trace)
    ensures Prepend([a], 1, Prepend([b], 1, Prepend([c], 1, t))) == Prepend([a, b, c], 3, t)
  {
    assert [a] + ([b] + ([c] + t.output)) == [a, b, c] + t.output;
  }

  /** Four turns that each write one message make one stretch of four. */
  lemma Prepend4(a: string, b: string, c: string, d: string, t: Trace)
    ensures Prepend([a], 1, Prepend([b], 1, Prepend([c], 1, Prepend([d], 1, t)))) == Prepend([a, b, c, d], 4, t)
  {
    assert [a] + ([b] + ([c] + ([d] + t.output))) == [a, b, c, d] + t.output;
  }

  /** What every run from `s` over `n` lines promises. */
  ghost predicate Fits(w: World, s: Snapshot, n: nat, t: Trace)
    reads w, w.rooms.Values
  {
    // lines are read one at a time and never past the end
    && t.consumed <= n
    && (t.ending.InputExhausted? ==> t.consumed == n)
    // one message per line read, except for the line whose exception escapes
    && |t.output| == (if t.ending.Escaped? then t.consumed - 1 else t.consumed)
    && (!t.ending.InputExhausted? ==> t.consumed >= 1)
    // a won run ends with the winning message
    && (t.ending.Won? ==> |t.output| >= 1 && t.output[|t.output| - 1] == WINNING_MSG)
    // only game exceptions are caught; the escaping one is of another kind
    && (t.ending.Escaped? ==> !IsZuulException(t.ending.exc))
    // the player stays in the world and forgets nothing
    && t.last.room in w.rooms.Values
    && s.visited <= t.last.visited && s.bag <= t.last.bag
    && (Distinct(s.visited) ==> Distinct(t.last.visited))
  }

  /** The run of the loop over `input` from state `s` in world `w`. */
  function Run(w: World, kind: PlayerClass, s: Snapshot, input: seq<string>): (t: Trace)
    reads w, w.rooms.Values
    requires w.Valid() && s.room in w.rooms.Values
    ensures Fits(w, s, |input|, t)
    decreases |input|, 1
  {
    if input == [] then Trace([], 0, InputExhausted, s)
    else Turn(w, kind, s, input[0], input[1..])
  }

  /** One turn of the loop: `line` is executed, then the run goes on over
      `rest` unless the game ends. */
  function Turn(w: World, kind: PlayerClass, s: Snapshot, line: string, rest: seq<string>): (t: Trace)
    reads w, w.rooms.Values
    requires w.Valid() && s.room in w.rooms.Values
    ensures Fits(w, s, |rest| + 1, t) && t.consumed >= 1
    decreases |rest| + 1, 0
  {
    var (r, next) := Step(kind, s, line);
    match r
    case Ok(text) => Prepend([text], 1, Run(w, kind, next, rest))
    case Raise(e) =>
      if e == ThePlayerWonTheGame then Trace([WINNING_MSG], 1, Won, next)
      else if IsZuulException(e) then Prepend([Message(e)], 1, Run(w, kind, next, rest))
      else Trace([], 1, Escaped(e), next)
  }

  /** The first turn of a run, in terms of what the player's step returned
      and the state it left: the win ends the run, an exception that is not
      a game exception escapes, anything else is written and the run goes
      on from the new state. */
  lemma RunStep(w: World, kind: PlayerClass, s: Snapshot, input: seq<string>, r: Result<string>, next: Snapshot)
    requires w.Valid() && s.room in w.rooms.Values
    requires input != [] && Step(kind, s, input[0]) == (r, next)
    ensures next.room in w.rooms.Values
    ensures Run(w, kind, s, input)
            == if r == Raise(ThePlayerWonTheGame) then Trace([WINNING_MSG], 1, Won, next)
               else if r.Raise? && !IsZuulException(r.exc) then Trace([], 1, Escaped(r.exc), next)
               else Prepend([if r.Ok? then r.value else Message(r.exc)], 1, Run(w, kind, next, input[1..]))
  {
    assert next.room == s.room || next.room in s.room.adjacent.entries.Values;
    assert next.room in w.rooms.Values by {
      if next.room != s.room {
        var n :| n in w.rooms && w.rooms[n] == s.room;
      }
    }
  }

  /** Once the loop stops, the lines after the last one it read make no
      difference. */
  lemma {:induction false} RunStopsReading(w: World, kind: PlayerClass, s: Snapshot, input: seq<string>, input': seq<string>)
    requires w.Valid() && s.room in w.rooms.Values
    requires !Run(w, kind, s, input).ending.InputExhausted?
    requires Run(w, kind, s, input).consumed <= |input'|
    requires input'[..Run(w, kind, s, input).consumed] == input[..Run(w, kind, s, input).consumed]
    ensures Run(w, kind, s, input') == Run(w, kind, s, input)
    decreases |input|
  {
    var c := Run(w, kind, s, input).consumed;
    assert input'[0] == input[0] by {
      assert input[..c][0] == input[0] && input'[..c][0] == input'[0];
    }
    var (r, next) := Step(kind, s, input[0]);
    if r.Ok? || (r.exc != ThePlayerWonTheGame && IsZuulException(r.exc)) {
      var o := if r.Ok? then r.value else Message(r.exc);
      var t := Run(w, kind, next, input[1..]);
      assert Run(w, kind, s, input) == Prepend([o], 1, t);
      assert input'[1..][..t.consumed] == input[1..][..t.consumed] by {
        assert input'[1..][..t.consumed] == input'[..c][1..];
        assert input[1..][..t.consumed] == input[..c][1..];
      }
      RunStopsReading(w, kind, next, input[1..], input'[1..]);
      assert Run(w, kind, s, input') == Prepend([o], 1, Run(w, kind, next, input'[1..]));
    }
  }

  /** Feeding more input after a run that used up its input continues from
      where that run left off. */
  lemma {:induction false} RunAppend(w: World, kind: PlayerClass, s: Snapshot, input: seq<string>, more: seq<string>)
    requires w.Valid() && s.room in w.rooms.Values
    requires Run(w, kind, s, input).ending.InputExhausted?
    ensures var t := Run(w, kind, s, input);
            Run(w, kind, s, input + more) == Prepend(t.output, |input|, Run(w, kind, t.last, more))
    decreases |input|
  {
    if input == [] {
      assert input + more == more;
    } else {
      assert (input + more)[0] == input[0];
      assert (input + more)[1..] == input[1..] + more;
      var (r, next) := Step(kind, s, input[0]);
      var t' := Run(w, kind, next, input[1..]);
      RunAppend(w, kind, next, input[1..], more);
      var o := if r.Ok? then r.value else Message(r.exc);
      assert Run(w, kind, s, input) == Prepend([o], 1, t');
      assert Run(w, kind, s, input + more) == Prepend([o], 1, Run(w, kind, next, input[1..] + more));
      PrependPrepend([o], 1, t'.output, |input| - 1, Run(w, kind, t'.last, more));
    }
  }

  /** A line the player rejects with a game exception is answered with its
      message, and the game goes on from the same state. */
  lemma RejectedLineChangesNothing(w: World, kind: PlayerClass, s: Snapshot, line: string, more: seq<string>)
    requires w.Valid() && s.room in w.rooms.Values
    requires var r := Step(kind, s, line).0;
             r.Raise? && r.exc != ThePlayerWonTheGame && IsZuulException(r.exc)
    ensures Run(w, kind, s, [line] + more)
            == Prepend([Message(Step(kind, s, line).0.exc)], 1, Run(w, kind, s, more))
  {
    assert ([line] + more)[0] == line && ([line] + more)[1..] == more;
  }

  /** A line the player executes is answered with its text, and the game
      goes on from the state it leaves. */
  lemma AcceptedLine(w: World, kind: PlayerClass, s: Snapshot, line: string, more: seq<string>)
    requires w.Valid() && s.room in w.rooms.Values
    requires Step(kind, s, line).0.Ok?
    ensures Step(kind, s, line).1.room in w.rooms.Values
    ensures Run(w, kind, s, [line] + more)
            == Prepend([Step(kind, s, line).0.value], 1, Run(w, kind, Step(kind, s, line).1, more))
  {
    assert ([line] + more)[0] == line && ([line] + more)[1..] == more;
  }

  /** A line that wins ends the game with the winning message, whatever
      input remains. */
  lemma WinningLine(w: World, kind: PlayerClass, s: Snapshot, line: string, more: seq<string>)
    requires w.Valid() && s.room in w.rooms.Values
    requires Step(kind, s, line).0 == Raise(ThePlayerWonTheGame)
    ensures Run(w, kind, s, [line] + more) == Trace([WINNING_MSG], 1, Won, Step(kind, s, line).1)
  {
    assert ([line] + more)[0] == line;
  }

  /** `move <alias>` through an exit, as one turn of the loop: the winning
      message and the end when the room entered completes the win
      condition, otherwise the arrival message and the game going on from
      the room entered. */
  lemma MoveLine(w: World, kind: PlayerClass, s: Snapshot, d: Direction, more: seq<string>)
    requires w.Valid() && s.room in w.rooms.Values && kind.commands.Get("move") == Some(Move)
    requires s.room.GetNeighbor(d).Some?
    ensures s.room.GetNeighbor(d).value in w.rooms.Values
    ensures var next := s.room.GetNeighbor(d).value;
            var entered := ApplyHook(next.hook, Snapshot(next, AddVisited(s.visited, next.description), s.bag));
            Run(w, kind, s, ["move " + Alias(d)] + more)
            == if kind.haveWon(VisitedSet(entered.visited), entered.bag) then Trace([WINNING_MSG], 1, Won, entered)
               else Prepend([Arrival(next.description)], 1, Run(w, kind, entered, more))
  {
    var next := s.room.GetNeighbor(d).value;
    assert next in s.room.adjacent.entries.Values;
    MoveThroughExit(kind, s, d, next);
    assert (["move " + Alias(d)] + more)[0] == "move " + Alias(d);
    assert (["move " + Alias(d)] + more)[1..] == more;
  }

  /** A line the player answers without changing anything: its answer, and
      the game goes on from the same state. */
  lemma QueryLine(w: World, kind: PlayerClass, s: Snapshot, input: seq<string>, answer: string)
    requires w.Valid() && s.room in w.rooms.Values
    requires input != [] && Step(kind, s, input[0]) == (Ok(answer), s)
    ensures Run(w, kind, s, input) == Prepend([answer], 1, Run(w, kind, s, input[1..]))
  {
  }

  /** `move <alias>` where there is no exit, as one turn of the loop: the
      failure message, and the game goes on from the same state. */
  lemma BlockedLine(w: World, kind: PlayerClass, s: Snapshot, d: Direction, more: seq<string>)
    requires w.Valid() && s.room in w.rooms.Values && kind.commands.Get("move") == Some(Move)
    requires s.room.GetNeighbor(d).None?
    ensures Run(w, kind, s, ["move " + Alias(d)] + more)
            == Prepend([CannotExecute("move " + Alias(d))], 1, Run(w, kind, s, more))
  {
    MoveBlocked(kind, s, d);
    RejectedLineChangesNothing(w, kind, s, "move " + Alias(d), more);
  }

  class Game {
    const player: Player

    constructor(player: Player)
      ensures this.player == player
    {
      this.player := player;
    }

    /** One pass of `play`'s loop: the player executes the first line of
        `input`, and the run over `input` is that answer followed by the
        run over the rest from the state it left. */
    method TakeTurn(input: seq<string>) returns (r: Result<string>)
      requires player.Valid() && input != []
      modifies player
      ensures player.Valid()
      ensures old(Run(player.world, player.kind, player.State(), input))
              == if r == Raise(ThePlayerWonTheGame) then Trace([WINNING_MSG], 1, Won, player.State())
                 else if r.Raise? && !IsZuulException(r.exc) then Trace([], 1, Escaped(r.exc), player.State())
                 else Prepend([if r.Ok? then r.value else Message(r.exc)], 1, Run(player.world, player.kind, player.State(), input[1..]))
    {
      ghost var before := player.State();
      r := player.ExecuteUserCommand(input[0]);
      RunStep(player.world, player.kind, before, input, r, player.State());
    }

    /** `play`: runs the loop over `input`, returning the messages written,
        the number of lines read and how the loop stopped. */
    method Play(input: seq<string>) returns (output: seq<string>, consumed: nat, ending: Ending)
      requires player.Valid()
      modifies player
      ensures player.Valid()
      ensures Trace(output, consumed, ending, player.State())
              == old(Run(player.world, player.kind, player.State(), input))
    {
      ghost var start := player.State();
      ghost var whole := Run(player.world, player.kind, start, input);
      output := [];
      var i := 0;
      assert input[i..] == input;
      assert whole == Prepend(output, i, whole);
      while i < |input|
        invariant 0 <= i <= |input| && player.Valid()
        invariant whole == old(Run(player.world, player.kind, player.State(), input))
        invariant whole == Prepend(output, i, Run(player.world, player.kind, player.State(), input[i..]))
        decreases |input| - i
      {
        assert input[i..][1..] == input[i + 1..];
        var r := TakeTurn(input[i..]);
        if r.Raise? && r.exc == ThePlayerWonTheGame {
          output := output + [WINNING_MSG];
          return output, i + 1, Won;
        }
        if r.Raise? && !IsZuulException(r.exc) {
          assert output + [] == output;
          return output, i + 1, Escaped(r.exc);
        }
        var o := if r.Ok? then r.value else Message(r.exc);
        ghost var after := Run(player.world, player.kind, player.State(), input[i + 1..]);
        PrependPrepend(output, i, [o], 1, after);
        output := output + [o];
        i := i + 1;
      }
      assert input[i..] == [];
      consumed, ending := i, InputExhausted;
    }
  }
}
