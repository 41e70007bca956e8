/** Slash-command dispatch of the terminal front end (packages/cli/src/commands/CommandManager.ts). */
module Commands {
  import opened Wrappers
  import opened Strings
  import opened Errors

  /** A `Command`: its name and description; its `run` is supplied to `HandleInput`. */
  datatype Command = Command(name: string, description: string)

  const HelpCommand: Command := Command("help", "显示帮助信息")
  const ExitCommand: Command := Command("exit", "退出程序")

  /** What handling an input did: nothing (plain text), reported an unknown command, or ran a
      command with its arguments (`Fail` when `run` threw, which is caught and reported). */
  datatype Effect =
    | NoCommand
    | UnknownCommand(name: string)
    | Ran(command: Command, args: seq<string>, outcome: Outcome<Thrown>)

  /** `input.slice(1).trim().split(/\s+/)` */
  function Parts(input: string): (parts: seq<string>)
    requires StartsWith(input, "/")
    ensures |parts| >= 1
  {
    SplitOnSpaces(Trim(input[1..]))
  }

  /** `parts[0]`: the command name. */
  function CommandName(input: string): (name: string)
    requires StartsWith(input, "/")
    ensures NoSpace(name)
    ensures name == "" <==> Trim(input[1..]) == ""
  {
    var t := Trim(input[1..]);
    TrimBounds(input[1..]);
    SplitPieces(t);
    Parts(input)[0]
  }

  /** `parts.slice(1)`: the arguments. */
  function CommandArgs(input: string): (args: seq<string>)
    requires StartsWith(input, "/")
    ensures forall k :: 0 <= k < |args| ==> args[k] != "" && NoSpace(args[k])
  {
    var t := Trim(input[1..]);
    TrimBounds(input[1..]);
    SplitPieces(t);
    Parts(input)[1..]
  }

  /** A trimmed string neither starts nor ends with white space. */
  lemma TrimBounds(s: string)
    ensures Trim(s) == "" || (!IsSpace(Trim(s)[0]) && !IsSpace(Trim(s)[|Trim(s)| - 1]))
  {
    var r := TrimStart(s);
    var t := TrimEnd(r);
    if t != "" {
      assert t == r[..|t|] && r[0] == t[0];
    }
  }

  // ---- the command line, rebuilt ----

  /** The first character of a joined list is that of its first piece. */
  lemma {:induction false} JoinFirst(tokens: seq<string>, sep: string)
    requires tokens != [] && tokens[0] != ""
    ensures Join(tokens, sep) != "" && Join(tokens, sep)[0] == tokens[0][0]
  {
  }

  /** The last character of a joined list is that of its last piece. */
  lemma {:induction false} JoinLast(tokens: seq<string>, sep: string)
    requires tokens != [] && tokens[|tokens| - 1] != ""
    ensures Join(tokens, sep) != "" && Join(tokens, sep)[|Join(tokens, sep)| - 1] == tokens[|tokens| - 1][|tokens[|tokens| - 1]| - 1]
    decreases |tokens|
  {
    if |tokens| > 1 {
      JoinLast(tokens[1..], sep);
    }
  }

  /** The first white space at or after `i` is at `k`. */
  lemma {:induction false} NextSpaceIs(s: string, i: nat, k: nat)
    requires i <= k <= |s|
    requires forall m :: i <= m < k ==> !IsSpace(s[m])
    requires k == |s| || IsSpace(s[k])
    ensures NextSpace(s, i) == k
    decreases k - i
  {
    if i < k {
      NextSpaceIs(s, i + 1, k);
    }
  }

  /** Tokens that are non-empty and free of white space, joined by single spaces, split back into
      the same tokens. */
  lemma {:induction false} SplitJoin(tokens: seq<string>)
    requires tokens != []
    requires forall k :: 0 <= k < |tokens| ==> tokens[k] != "" && NoSpace(tokens[k])
    ensures SplitOnSpaces(Join(tokens, " ")) == tokens
    decreases |tokens|
  {
    var s := Join(tokens, " ");
    var t0 := tokens[0];
    if |tokens| == 1 {
      NextSpaceIs(s, 0, |s|);
    } else {
      var rest := Join(tokens[1..], " ");
      assert s == t0 + " " + rest;
      NextSpaceIs(s, 0, |t0|);
      JoinFirst(tokens[1..], " ");
      assert SkipSpaces(s, |t0|) == |t0| + 1 by {
        assert s[|t0| + 1] == rest[0];
      }
      assert s[..|t0|] == t0 && s[|t0| + 1..] == rest;
      SplitJoin(tokens[1..]);
      assert tokens == [t0] + tokens[1..];
    }
  }

  /** `"/" + name + " " + args…` parses back into `name` and `args`, whatever white space surrounds
      the command line. */
  lemma CommandLineRoundTrip(name: string, args: seq<string>, before: string, after: string)
    requires name != "" && NoSpace(name)
    requires forall k :: 0 <= k < |args| ==> args[k] != "" && NoSpace(args[k])
    requires forall k :: 0 <= k < |before| ==> IsSpace(before[k])
    requires forall k :: 0 <= k < |after| ==> IsSpace(after[k])
    ensures var input := "/" + (before + Join([name] + args, " ") + after);
            StartsWith(input, "/") && CommandName(input) == name && CommandArgs(input) == args
  {
    var tokens := [name] + args;
    forall k | 0 <= k < |tokens|
      ensures tokens[k] != "" && NoSpace(tokens[k])
    {
      if k > 0 {
        assert tokens[k] == args[k - 1];
      }
    }
    PartsOfLine(tokens, before, after);
  }

  /** The parts of a command line of non-empty tokens separated by single spaces are those tokens. */
  lemma PartsOfLine(tokens: seq<string>, before: string, after: string)
    requires tokens != []
    requires forall k :: 0 <= k < |tokens| ==> tokens[k] != "" && NoSpace(tokens[k])
    requires forall k :: 0 <= k < |before| ==> IsSpace(before[k])
    requires forall k :: 0 <= k < |after| ==> IsSpace(after[k])
    ensures var input := "/" + (before + Join(tokens, " ") + after);
            StartsWith(input, "/") && Parts(input) == tokens
  {
    var line := Join(tokens, " ");
    var body := before + line + after;
    var input := "/" + body;
    assert input[..1] == "/" && input[1..] == body;
    JoinFirst(tokens, " ");
    JoinLast(tokens, " ");
    TrimAround(before, line, after);
    SplitJoin(tokens);
  }

  /** Trimming removes exactly the white space around a line that neither starts nor ends with it. */
  lemma TrimAround(before: string, line: string, after: string)
    requires line != "" && !IsSpace(line[0]) && !IsSpace(line[|line| - 1])
    requires forall k :: 0 <= k < |before| ==> IsSpace(before[k])
    requires forall k :: 0 <= k < |after| ==> IsSpace(after[k])
    ensures Trim(before + line + after) == line
  {
    TrimStartSkips(before, line + after);
    assert before + line + after == before + (line + after);
    TrimEndSkips(line, after);
  }

  lemma {:induction false} TrimStartSkips(spaces: string, s: string)
    requires s != "" && !IsSpace(s[0])
    requires forall k :: 0 <= k < |spaces| ==> IsSpace(spaces[k])
    ensures TrimStart(spaces + s) == s
    decreases |spaces|
  {
    if spaces != [] {
      assert (spaces + s)[1..] == spaces[1..] + s;
      TrimStartSkips(spaces[1..], s);
    }
  }

  lemma {:induction false} TrimEndSkips(s: string, spaces: string)
    requires s != "" && !IsSpace(s[|s| - 1])
    requires forall k :: 0 <= k < |spaces| ==> IsSpace(spaces[k])
    ensures TrimEnd(s + spaces) == s
    decreases |spaces|
  {
    if spaces != [] {
      var init := spaces[..|spaces| - 1];
      assert (s + spaces)[..|s + spaces| - 1] == s + init;
      TrimEndSkips(s, init);
    } else {
      assert s + spaces == s;
    }
  }

  /** `CommandManager` */
  class CommandManager {
    var commands: map<string, Command>

    /** The constructor registers `help` and `exit` under their names. */
    constructor()
      ensures commands == map[HelpCommand.name := HelpCommand, ExitCommand.name := ExitCommand]
    {
      commands := map[];
      new;
      commands := commands[HelpCommand.name := HelpCommand];
      commands := commands[ExitCommand.name := ExitCommand];
    }

    /** `handleInput`: whether the input was a command line, and what handling it did. `run` gives
        the outcome of a command's `run` on its arguments. */
    method HandleInput(input: string, run: (Command, seq<string>) -> Outcome<Thrown>) returns (handled: bool, effect: Effect)
      ensures handled <==> StartsWith(input, "/")
      ensures !handled ==> effect == NoCommand
      ensures handled && CommandName(input) !in commands ==> effect == UnknownCommand(CommandName(input))
      ensures handled && CommandName(input) in commands ==>
                effect == Ran(commands[CommandName(input)], CommandArgs(input),
                              run(commands[CommandName(input)], CommandArgs(input)))
    {
      if !StartsWith(input, "/") {
        return false, NoCommand;
      }
      var parts := SplitOnSpaces(Trim(input[1..]));
      var commandName := parts[0];
      var args := parts[1..];
      if commandName !in commands {
        return true, UnknownCommand(commandName);
      }
      var command := commands[commandName];
      var outcome := run(command, args);
      return true, Ran(command, args, outcome);
    }
  }

  /** The registered commands are exactly `help` and `exit`; every other name, the empty one included,
      is unknown. */
  lemma RegisteredCommands(name: string)
    ensures var commands := map[HelpCommand.name := HelpCommand, ExitCommand.name := ExitCommand];
            (name in commands <==> name == "help" || name == "exit") &&
            (name in commands ==> commands[name].name == name)
  {
  }
}
