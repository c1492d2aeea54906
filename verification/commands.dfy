/** The command layer of the player: splitting a line of user input into a
    command name and its arguments, the direction words `move` accepts, and
    the command table every player class builds from its bases' tables and
    its own commands. */
module Commands {
  import opened Dicts
  import opened Exceptions
  import opened Rooms

  // ---------------------------------------------------------------- input

  /** Python's `s.split(' ')`: the pieces between single spaces, empty
      pieces included. */
  function Split(s: string): (r: seq<string>)
    ensures |r| >= 1
    ensures forall i | 0 <= i < |r| :: ' ' !in r[i]
  {
    if s == [] then [""]
    else
      var rest := Split(s[1..]);
      if s[0] == ' ' then [""] + rest
      else [[s[0]] + rest[0]] + rest[1..]
  }

  /** Python's `sep.join(parts)`. */
  function Join(parts: seq<string>, sep: string): string {
    if parts == [] then ""
    else if |parts| == 1 then parts[0]
    else parts[0] + sep + Join(parts[1..], sep)
  }

  /** `needle` occurs in `hay` as a slice (Python's `needle in hay`). */
  ghost predicate Occurs(needle: string, hay: string) {
    exists i | 0 <= i <= |hay| :: needle <= hay[i..]
  }

  lemma OccursSelf(x: string)
    ensures Occurs(x, x)
  {
    assert x <= x[0..];
  }

  /** What occurs in a string occurs in any extension of it. */
  lemma OccursLeft(x: string, a: string, b: string)
    requires Occurs(x, a)
    ensures Occurs(x, a + b)
  {
    var i :| 0 <= i <= |a| && x <= a[i..];
    assert (a + b)[i..] == a[i..] + b;
  }

  /** What occurs in a string occurs after any prefix put in front of it. */
  lemma OccursRight(x: string, a: string, b: string)
    requires Occurs(x, b)
    ensures Occurs(x, a + b)
  {
    var i :| 0 <= i <= |b| && x <= b[i..];
    assert (a + b)[|a| + i..] == b[i..];
  }

  /** Every part occurs in the joined string. */
  lemma {:induction false} JoinMentions(parts: seq<string>, sep: string, k: nat)
    requires k < |parts|
    ensures Occurs(parts[k], Join(parts, sep))
  {
    if |parts| == 1 {
      OccursSelf(parts[0]);
    } else {
      var rest := Join(parts[1..], sep);
      assert Join(parts, sep) == (parts[0] + sep) + rest;
      if k == 0 {
        OccursSelf(parts[0]);
        OccursLeft(parts[0], parts[0], sep);
        OccursLeft(parts[0], parts[0] + sep, rest);
      } else {
        JoinMentions(parts[1..], sep, k - 1);
        OccursRight(parts[k], parts[0] + sep, rest);
      }
    }
  }

  /** Splitting on single spaces loses nothing: joining the pieces with a
      space gives the line back. */
  lemma {:induction false} JoinSplit(s: string)
    ensures Join(Split(s), " ") == s
  {
    if s != [] {
      var rest := Split(s[1..]);
      JoinSplit(s[1..]);
      if s[0] == ' ' {
        assert Split(s) == [""] + rest;
        assert s == [' '] + s[1..];
      } else if |rest| == 1 {
        assert Split(s) == [[s[0]] + rest[0]];
        assert s == [s[0]] + s[1..];
      } else {
        var parts := Split(s);
        assert parts == [[s[0]] + rest[0]] + rest[1..];
        assert parts[1..] == rest[1..];
        calc {
          Join(parts, " ");
          ([s[0]] + rest[0]) + " " + Join(rest[1..], " ");
          [s[0]] + (rest[0] + " " + Join(rest[1..], " "));
          [s[0]] + Join(rest, " ");
          [s[0]] + s[1..];
          s;
        }
      }
    }
  }

  /** A word without spaces is split into itself alone. */
  lemma {:induction false} SplitWord(w: string)
    requires ' ' !in w
    ensures Split(w) == [w]
  {
    if w != [] {
      SplitWord(w[1..]);
      assert [w[0]] + w[1..] == w;
    }
  }

  /** A space-free word followed by a space is split off as the first piece. */
  lemma {:induction false} SplitAfterWord(w: string, tail: string)
    requires ' ' !in w
    ensures Split(w + " " + tail) == [w] + Split(tail)
  {
    if w == [] {
      assert w + " " + tail == [' '] + tail;
      assert (w + " " + tail)[1..] == tail;
    } else {
      SplitAfterWord(w[1..], tail);
      assert (w + " " + tail)[1..] == w[1..] + " " + tail;
      assert [w[0]] + w[1..] == w;
    }
  }

  /** Joining space-free words with single spaces and splitting the result
      gives the words back. */
  lemma {:induction false} SplitJoin(parts: seq<string>)
    requires |parts| >= 1 && forall i | 0 <= i < |parts| :: ' ' !in parts[i]
    ensures Split(Join(parts, " ")) == parts
  {
    if |parts| == 1 {
      SplitWord(parts[0]);
    } else {
      SplitJoin(parts[1..]);
      SplitAfterWord(parts[0], Join(parts[1..], " "));
    }
  }

  /** Every piece of a line is empty exactly when the line holds nothing
      but spaces. */
  lemma {:induction false} SplitBlank(s: string)
    ensures (forall i | 0 <= i < |Split(s)| :: Split(s)[i] == "") <==> (forall i | 0 <= i < |s| :: s[i] == ' ')
  {
    if s != [] {
      SplitBlank(s[1..]);
      var rest := Split(s[1..]);
      assert forall i | 0 <= i < |s[1..]| :: s[1..][i] == s[i + 1];
      if s[0] == ' ' {
        assert Split(s) == [""] + rest;
        assert forall i | 0 <= i < |rest| :: Split(s)[i + 1] == rest[i];
      } else {
        assert Split(s)[0] == [s[0]] + rest[0];
      }
    }
  }

  /** The tokens of a line: its single-space pieces with the empty ones
      dropped. */
  function Tokens(line: string): (r: seq<string>)
    ensures forall i | 0 <= i < |r| :: r[i] != "" && ' ' !in r[i]
  {
    var r := Without(Split(line), "");
    forall i | 0 <= i < |r| ensures ' ' !in r[i] {
      assert r[i] in Split(line);
    }
    r
  }

  /** A space splits a line in two: the pieces of the part before it, then
      the pieces of the part after it. */
  lemma {:induction false} SplitSpace(a: string, b: string)
    ensures Split(a + " " + b) == Split(a) + Split(b)
  {
    if a == [] {
      assert a + " " + b == [' '] + b;
      assert (a + " " + b)[1..] == b;
    } else {
      var s := a + " " + b;
      assert s[0] == a[0] && s[1..] == a[1..] + " " + b;
      SplitSpace(a[1..], b);
      if a[0] != ' ' {
        var rest := Split(a[1..]);
        assert Split(s) == [[a[0]] + rest[0]] + (rest[1..] + Split(b));
        assert Split(a) == [[a[0]] + rest[0]] + rest[1..];
      }
    }
  }

  /** The tokens of a line are those before a space followed by those after
      it, in order: where a line is cut at a space makes no difference. */
  lemma TokensSpace(a: string, b: string)
    ensures Tokens(a + " " + b) == Tokens(a) + Tokens(b)
  {
    SplitSpace(a, b);
    WithoutAppend(Split(a), Split(b), "");
  }

  /** A line of spaces only has no tokens. */
  lemma TokensBlank(s: string)
    requires forall i | 0 <= i < |s| :: s[i] == ' '
    ensures Tokens(s) == []
  {
    SplitBlank(s);
    assert forall i | 0 <= i < |Split(s)| :: Split(s)[i] == "";
    WithoutOnly(Split(s), "");
  }

  /** A word followed by spaces is the line's only token. */
  lemma TokensTrailing(w: string, post: string)
    requires forall i | 0 <= i < |post| :: post[i] == ' '
    requires w != "" && ' ' !in w
    ensures Tokens(w + post) == [w]
  {
    SplitWord(w);
    if post == [] {
      assert w + post == w;
    } else {
      TokensSpace(w, post[1..]);
      TokensBlank(post[1..]);
      assert w + post == w + " " + post[1..];
    }
  }

  /** A word between runs of spaces is the line's only token. */
  lemma TokensPadded(pre: string, w: string, post: string)
    requires forall i | 0 <= i < |pre| :: pre[i] == ' '
    requires forall i | 0 <= i < |post| :: post[i] == ' '
    requires w != "" && ' ' !in w
    ensures Tokens(pre + w + post) == [w]
  {
    var right := w + post;
    TokensTrailing(w, post);
    if pre == [] {
      assert pre + w + post == right;
    } else {
      var n := |pre| - 1;
      TokensSpace(pre[..n], right);
      TokensBlank(pre[..n]);
      assert pre + w + post == pre[..n] + " " + right;
    }
  }

  /** The command name and the arguments of a line; IndexError on a line
      that holds only spaces (or nothing). */
  function UnwrapUserInput(line: string): (r: Result<(string, seq<string>)>)
    ensures r.Raise? <==> forall i | 0 <= i < |line| :: line[i] == ' '
    ensures r.Raise? ==> r.exc == IndexError
    ensures r.Ok? ==> r.value.0 != "" && ' ' !in r.value.0
    ensures r.Ok? ==> forall i | 0 <= i < |r.value.1| :: r.value.1[i] != "" && ' ' !in r.value.1[i]
    ensures r.Ok? ==> [r.value.0] + r.value.1 == Tokens(line)
  {
    var tokens := Tokens(line);
    SplitBlank(line);
    var parts := Split(line);
    assert tokens == [] <==> forall i | 0 <= i < |parts| :: parts[i] == "" by {
      if tokens != [] {
        assert tokens[0] in parts;
      }
      if exists i | 0 <= i < |parts| :: parts[i] != "" {
        var i :| 0 <= i < |parts| && parts[i] != "";
        assert parts[i] in tokens;
      }
    }
    if tokens == [] then Raise(IndexError) else Ok((tokens[0], tokens[1..]))
  }

  /** A single word is a command without arguments. */
  lemma UnwrapWord(w: string)
    requires w != "" && ' ' !in w
    ensures UnwrapUserInput(w) == Ok((w, []))
  {
    SplitWord(w);
  }

  /** A word, one space and a second word: a command with one argument. */
  lemma UnwrapWordArgument(w: string, a: string)
    requires w != "" && ' ' !in w && a != "" && ' ' !in a
    ensures UnwrapUserInput(w + " " + a) == Ok((w, [a]))
  {
    SplitAfterWord(w, a);
    SplitWord(a);
  }

  /** Spaces around a word, however many, do not matter: the word is a
      command without arguments. */
  lemma UnwrapPaddedWord(pre: string, w: string, post: string)
    requires forall i | 0 <= i < |pre| :: pre[i] == ' '
    requires forall i | 0 <= i < |post| :: post[i] == ' '
    requires w != "" && ' ' !in w
    ensures UnwrapUserInput(pre + w + post) == Ok((w, []))
  {
    TokensPadded(pre, w, post);
  }

  /** Leading, trailing and repeated spaces do not matter: the first word
      is the command and the second its one argument. */
  lemma UnwrapPaddedWordArgument(pre: string, w: string, mid: string, a: string, post: string)
    requires forall i | 0 <= i < |pre| :: pre[i] == ' '
    requires mid != [] && forall i | 0 <= i < |mid| :: mid[i] == ' '
    requires forall i | 0 <= i < |post| :: post[i] == ' '
    requires w != "" && ' ' !in w && a != "" && ' ' !in a
    ensures UnwrapUserInput(pre + w + mid + a + post) == Ok((w, [a]))
  {
    var gap := mid[..|mid| - 1];
    assert pre + w + mid + a + post == (pre + w + gap) + " " + ([] + a + post);
    TokensSpace(pre + w + gap, [] + a + post);
    TokensPadded(pre, w, gap);
    TokensPadded([], a, post);
  }

  // ----------------------------------------------------------- directions

  /** `Player._DIRECTIONS[token]`: the direction whose alias is `token`;
      None (a KeyError in the caller) for any other word. */
  function ParseDirection(token: string): (r: Option<Direction>)
    ensures r.Some? ==> Alias(r.value) == token
    ensures forall d :: token == Alias(d) ==> r == Some(d)
  {
    if token == "up" then Some(North)
    else if token == "down" then Some(South)
    else if token == "left" then Some(West)
    else if token == "right" then Some(East)
    else None
  }

  // -------------------------------------------------------- command table

  datatype Command = Move | Quit | Ls | Where

  /** The number of arguments the user must give each command. */
  function Arity(c: Command): nat {
    match c
    case Move => 1
    case Quit => 0
    case Ls => 0
    case Where => 0
  }

  /** An attribute of a player class body: a method decorated as a user
      command, or anything else. */
  datatype Attribute = UserCommand(command: Command) | PlainAttribute

  type CommandTable = Dict<string, Command>

  ghost predicate ValidBases(bases: seq<Option<CommandTable>>) {
    forall i | 0 <= i < |bases| :: bases[i].Some? ==> bases[i].value.Valid()
  }

  /** The bases' tables merged in declaration order, skipping a base that
      has no table. */
  function InheritedTable(bases: seq<Option<CommandTable>>): (t: CommandTable)
    requires ValidBases(bases)
    ensures t.Valid()
  {
    if bases == [] then Empty()
    else
      var prev := InheritedTable(bases[..|bases| - 1]);
      match bases[|bases| - 1]
      case None => prev
      case Some(b) => Merge(prev, b)
  }

  /** `t` with the user commands among `names` (looked up in `attrs`)
      assigned in order. */
  function AddCommands(t: CommandTable, names: seq<string>, attrs: map<string, Attribute>): (r: CommandTable)
    requires t.Valid() && forall n | n in names :: n in attrs
    ensures r.Valid()
  {
    if names == [] then t
    else
      var last := names[|names| - 1];
      var prev := AddCommands(t, names[..|names| - 1], attrs);
      match attrs[last]
      case UserCommand(c) => prev.Put(last, c)
      case PlainAttribute => prev
  }

  /** The command table of a player class with the given bases and body. */
  function CommandTableOf(bases: seq<Option<CommandTable>>, attrs: Dict<string, Attribute>): (t: CommandTable)
    requires ValidBases(bases) && attrs.Valid()
    ensures t.Valid()
  {
    AddCommands(InheritedTable(bases), attrs.keys, attrs.entries)
  }

  /** The command a name gets from the bases: that of the last base whose
      table has it. */
  function FromBases(bases: seq<Option<CommandTable>>, name: string): Option<Command> {
    if bases == [] then None
    else
      var last := bases[|bases| - 1];
      if last.Some? && name in last.value.entries then last.value.Get(name)
      else FromBases(bases[..|bases| - 1], name)
  }

  lemma {:induction false} InheritedTableGet(bases: seq<Option<CommandTable>>, name: string)
    requires ValidBases(bases)
    ensures InheritedTable(bases).Get(name) == FromBases(bases, name)
  {
    if bases != [] {
      InheritedTableGet(bases[..|bases| - 1], name);
    }
  }

  /** The inherited names stay at the front, in their order; a user
      command among `names` overrides, and every other name keeps its
      inherited entry. */
  lemma {:induction false} AddCommandsGet(t: CommandTable, names: seq<string>, attrs: map<string, Attribute>, name: string)
    requires t.Valid() && forall n | n in names :: n in attrs
    ensures t.keys <= AddCommands(t, names, attrs).keys
    ensures AddCommands(t, names, attrs).Get(name)
            == if name in names && attrs[name].UserCommand? then Some(attrs[name].command) else t.Get(name)
  {
    if names != [] {
      var init := names[..|names| - 1];
      AddCommandsGet(t, init, attrs, name);
      assert forall n | n in names :: n in init || n == names[|names| - 1];
    }
  }

  /** A class's table holds its own user commands, and for every other name
      the entry of the last base that defines it: subclasses add or
      override commands without redeclaring the inherited ones. */
  lemma CommandTableGet(bases: seq<Option<CommandTable>>, attrs: Dict<string, Attribute>, name: string)
    requires ValidBases(bases) && attrs.Valid()
    ensures CommandTableOf(bases, attrs).Get(name)
            == match attrs.Get(name)
               case Some(UserCommand(c)) => Some(c)
               case _ => FromBases(bases, name)
    ensures InheritedTable(bases).keys <= CommandTableOf(bases, attrs).keys
  {
    AddCommandsGet(InheritedTable(bases), attrs.keys, attrs.entries, name);
    InheritedTableGet(bases, name);
  }

  /** Adding one more name to the body adds its command, if it is one. */
  lemma AddCommandsSnoc(t: CommandTable, names: seq<string>, n: string, attrs: map<string, Attribute>)
    requires t.Valid() && n in attrs && forall x | x in names :: x in attrs
    ensures AddCommands(t, names + [n], attrs)
            == match attrs[n]
               case UserCommand(c) => AddCommands(t, names, attrs).Put(n, c)
               case PlainAttribute => AddCommands(t, names, attrs)
  {
    assert (names + [n])[..|names|] == names;
  }

  /** A class with one base that has a table inherits that table as it is. */
  lemma SingleBaseTable(b: CommandTable)
    requires b.Valid()
    ensures InheritedTable([Some(b)]) == b
  {
    assert [Some(b)][..0] == [];
    MergeIntoEmpty(b);
  }

  /** A class body without user commands adds nothing to the table. */
  lemma {:induction false} AddNoCommands(t: CommandTable, names: seq<string>, attrs: map<string, Attribute>)
    requires t.Valid() && forall n | n in names :: n in attrs && attrs[n] == PlainAttribute
    ensures AddCommands(t, names, attrs) == t
  {
    if names != [] {
      AddNoCommands(t, names[..|names| - 1], attrs);
    }
  }

  /** `PlayerMeta.__init__`: starts from an empty table, merges in each
      base's table, then adds the class body's user commands. */
  method BuildCommandTable(bases: seq<Option<CommandTable>>, attrs: Dict<string, Attribute>) returns (t: CommandTable)
    requires ValidBases(bases) && attrs.Valid()
    ensures t.Valid()
    ensures t == CommandTableOf(bases, attrs)
  {
    t := Empty();
    for i := 0 to |bases|
      invariant t.Valid() && t == InheritedTable(bases[..i])
    {
      assert bases[..i + 1][..i] == bases[..i];
      if bases[i].Some? {
        t := Merge(t, bases[i].value);
      }
    }
    assert bases[..|bases|] == bases;
    for j := 0 to |attrs.keys|
      invariant t.Valid() && t == AddCommands(InheritedTable(bases), attrs.keys[..j], attrs.entries)
    {
      assert attrs.keys[..j + 1][..j] == attrs.keys[..j];
      var name := attrs.keys[j];
      match attrs.entries[name]
      case UserCommand(c) =>
        t := t.Put(name, c);
      case PlainAttribute =>
    }
    assert attrs.keys[..|attrs.keys|] == attrs.keys;
  }
}
