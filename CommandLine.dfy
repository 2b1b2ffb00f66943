/**
 * The score reader of the tracker (`main` in src/main.c): each input line is
 * cut into tokens the way `strtok` with the delimiters space, tab, CR and LF
 * cuts it, and the tokens are grouped into commands of at most 32 tokens.
 * A token starting with '#' ends the line; a ">>" token, or a token starting
 * with ':', begins a new command once the current one holds a token.
 */
module CommandLine {
  import opened Ints

  /** The delimiters handed to `strtok`. */
  predicate IsDelimiter(c: char) {
    c == ' ' || c == '\t' || c == '\r' || c == '\n'
  }

  /** A token as `strtok` can return it: not empty, and free of delimiters. */
  predicate IsToken(t: string) {
    t != [] && forall k :: 0 <= k < |t| ==> !IsDelimiter(t[k])
  }

  /** The length of the token at the head of `s`. */
  function TokenLength(s: string): (n: nat)
    ensures n <= |s|
    ensures forall k :: 0 <= k < n ==> !IsDelimiter(s[k])
    ensures n < |s| ==> IsDelimiter(s[n])
  {
    if s == [] || IsDelimiter(s[0]) then 0 else 1 + TokenLength(s[1..])
  }

  /** The tokens successive `strtok` calls return for a line, in order. */
  function Tokens(s: string): (r: seq<string>)
    ensures forall k :: 0 <= k < |r| ==> IsToken(r[k])
    decreases |s|
  {
    if s == [] then []
    else if IsDelimiter(s[0]) then Tokens(s[1..])
    else
      var n := TokenLength(s);
      assert n >= 1 && s[..n] == [s[0]] + s[1..n];
      [s[..n]] + Tokens(s[n..])
  }

  /** Tokens written back out, one space apart. */
  function Join(ts: seq<string>): string {
    if ts == [] then [] else if |ts| == 1 then ts[0] else ts[0] + " " + Join(ts[1..])
  }

  /** A token followed by a delimiter or by nothing is read back whole. */
  lemma TokenThenRest(t: string, rest: string)
    requires IsToken(t)
    requires rest == [] || IsDelimiter(rest[0])
    ensures Tokens(t + rest) == [t] + Tokens(rest)
  {
    var s := t + rest;
    TokenLengthOf(t, rest);
    assert s[..|t|] == t && s[|t|..] == rest;
  }

  lemma {:induction false} TokenLengthOf(t: string, rest: string)
    requires forall k :: 0 <= k < |t| ==> !IsDelimiter(t[k])
    requires rest == [] || IsDelimiter(rest[0])
    ensures TokenLength(t + rest) == |t|
    decreases |t|
  {
    if t != [] {
      assert (t + rest)[1..] == t[1..] + rest;
      TokenLengthOf(t[1..], rest);
    } else {
      assert t + rest == rest;
    }
  }

  /** Writing tokens out one space apart and cutting the line again gives the same tokens. */
  lemma {:induction false} TokensOfJoin(ts: seq<string>)
    requires forall k :: 0 <= k < |ts| ==> IsToken(ts[k])
    ensures Tokens(Join(ts)) == ts
    decreases |ts|
  {
    if |ts| == 1 {
      TokenThenRest(ts[0], []);
      assert ts[0] + [] == ts[0];
    } else if |ts| > 1 {
      var rest := " " + Join(ts[1..]);
      assert Join(ts) == ts[0] + rest;
      TokenThenRest(ts[0], rest);
      assert rest[1..] == Join(ts[1..]);
      TokensOfJoin(ts[1..]);
    }
  }

  /** The size of `cmdargv`. */
  const MaxArgs := 32

  /** A token starting with '#' ends the line. */
  predicate IsComment(t: string) {
    t != [] && t[0] == '#'
  }

  /** A token that begins a new command once the current one holds a token. */
  predicate StartsCommand(t: string) {
    t == ">>" || (t != [] && t[0] == ':')
  }

  /** What the inner `for` loop leaves: the command it filled and where `pch` then stands. */
  datatype Gathered = Gathered(command: seq<string>, next: Option<nat>)

  /**
   * The inner loop, from token `i` with `command` collected so far. `next` is
   * `None` when `pch` became null (end of line, or a comment); otherwise the
   * token the next command starts at. On reaching 32 tokens `pch` moves on
   * past the token just stored, the step the loop evidently needs (the loop
   * as written stays on that token: `GatherAsWritten`).
   */
  function Gather(ts: seq<string>, i: nat, command: seq<string>): (r: Gathered)
    requires i <= |ts| && |command| < MaxArgs
    ensures |command| <= |r.command| <= MaxArgs
    ensures r.next.Some? ==> i <= r.next.value <= |ts| && r.command != [] && (command == [] ==> i < r.next.value)
    decreases |ts| - i
  {
    if i == |ts| || IsComment(ts[i]) then Gathered(command, None)
    else if command != [] && StartsCommand(ts[i]) then Gathered(command, Some(i))
    else if |command| + 1 >= MaxArgs then Gathered(command + [ts[i]], Some(i + 1))
    else Gather(ts, i + 1, command + [ts[i]])
  }

  /** What the inner loop adds to `command`: no comment, and nothing that begins a command except a first token. */
  lemma {:induction false} GatherShape(ts: seq<string>, i: nat, command: seq<string>)
    requires i <= |ts| && |command| < MaxArgs
    ensures var r := Gather(ts, i, command);
      && r.command[..|command|] == command
      && (forall k :: |command| <= k < |r.command| ==> !IsComment(r.command[k]))
      && (forall k :: 0 < k && |command| <= k < |r.command| ==> !StartsCommand(r.command[k]))
    decreases |ts| - i
  {
    var r := Gather(ts, i, command);
    if i == |ts| || IsComment(ts[i]) || (command != [] && StartsCommand(ts[i])) {
      assert r.command == command;
    } else if |command| + 1 >= MaxArgs {
      assert r.command == command + [ts[i]];
    } else {
      var longer := command + [ts[i]];
      GatherShape(ts, i + 1, longer);
      assert r == Gather(ts, i + 1, longer);
      assert r.command[..|command|] == r.command[..|longer|][..|command|];
      assert r.command[|command|] == ts[i];
    }
  }

  /** The commands of a line from token `i` on: the `do ... while(pch)` loop. */
  function Commands(ts: seq<string>, i: nat): (r: seq<seq<string>>)
    requires i <= |ts|
    ensures forall k :: 0 <= k < |r| ==> r[k] != []
    decreases |ts| - i
  {
    var g := Gather(ts, i, []);
    if g.command == [] then []
    else
      match g.next
      case None => [g.command]
      case Some(j) => [g.command] + Commands(ts, j)
  }

  /** The commands of one line: nothing when it is blank or starts with a comment. */
  function LineCommands(ts: seq<string>): (r: seq<seq<string>>)
    ensures forall k :: 0 <= k < |r| ==> r[k] != []
  {
    if ts == [] || IsComment(ts[0]) then [] else Commands(ts, 0)
  }

  /**
   * The token loop of `main` for one line: the `do ... while(pch)`
   * loop around the `for` loop that fills `cmdargv`, with `pch` moved on past
   * a 32nd token as `Gather` does. `p` is the token `pch` stands at when a
   * command starts.
   */
  method ReadLine(ts: seq<string>) returns (cmds: seq<seq<string>>)
    ensures cmds == LineCommands(ts)
  {
    cmds := [];
    if ts == [] || IsComment(ts[0]) {
      return;
    }
    var p := 0;
    var more := true;
    while more
      invariant p <= |ts|
      invariant LineCommands(ts) == cmds + (if more then Commands(ts, p) else [])
      decreases |ts| - p, more
    {
      var argv: seq<string> := [];
      var q := p;
      var stopped, atEnd := false, false;
      while !stopped
        invariant p <= q <= |ts| && |argv| <= MaxArgs
        invariant !stopped ==> !atEnd && |argv| < MaxArgs && Gather(ts, p, []) == Gather(ts, q, argv)
        invariant stopped ==> Gather(ts, p, []) == Gathered(argv, if atEnd then None else Some(q))
        decreases |ts| - q, !stopped
      {
        ghost var g := Gather(ts, q, argv);
        if q == |ts| || IsComment(ts[q]) {
          assert g == Gathered(argv, None);
          stopped, atEnd := true, true;
        } else if argv != [] && StartsCommand(ts[q]) {
          assert g == Gathered(argv, Some(q));
          stopped := true;
        } else if |argv| + 1 >= MaxArgs {
          assert g == Gathered(argv + [ts[q]], Some(q + 1));
          argv := argv + [ts[q]];
          q := q + 1;
          stopped := true;
        } else {
          argv := argv + [ts[q]];
          q := q + 1;
        }
      }
      if argv != [] {
        cmds := cmds + [argv];
      }
      if atEnd {
        more := false;
      } else {
        p := q;
      }
    }
  }

  /** What `main` does with a command: the settings command, a command of `cmd_list`, or the unknown-command diagnostic. */
  datatype Action =
    | Configure(setting: string, args: seq<string>)
    | Generate(args: seq<string>)
    | AddNote(args: seq<string>)
    | UnknownCommand(name: string)

  /** The dispatch of a command: a leading ':' names a setting, otherwise the name is looked up in `cmd_list`. */
  function Dispatch(command: seq<string>): (a: Action)
    requires command != []
    ensures a.Configure? <==> command[0] != [] && command[0][0] == ':'
    ensures a.Configure? ==> command[0] == [':'] + a.setting && a.args == command[1..]
    ensures a.Generate? ==> command[0] == ">>" && a.args == command[1..]
    ensures a.AddNote? ==> command[0] == "n" && a.args == command[1..]
    ensures a.UnknownCommand? <==> !StartsCommand(command[0]) && command[0] != "n"
  {
    var name := command[0];
    if name != [] && name[0] == ':' then
      assert name == [':'] + name[1..];
      Configure(name[1..], command[1..])
    else if name == ">>" then Generate(command[1..])
    else if name == "n" then AddNote(command[1..])
    else UnknownCommand(name)
  }

  /** The command an action came from; an unknown command keeps only its name. */
  function Unparse(a: Action): (command: seq<string>)
    ensures command != []
  {
    match a
    case Configure(setting, args) => [[':'] + setting] + args
    case Generate(args) => [">>"] + args
    case AddNote(args) => ["n"] + args
    case UnknownCommand(name) => [name]
  }

  /** Dispatch loses nothing of a command it recognises. */
  lemma DispatchRoundTrip(command: seq<string>)
    requires command != [] && !Dispatch(command).UnknownCommand?
    ensures Unparse(Dispatch(command)) == command
  {
    assert command == [command[0]] + command[1..];
  }

  /** An action of the score, with the number of the line it was read from (`tracker.line`). */
  datatype Step = Step(line: nat, action: Action)

  /** The actions of the first `n` lines; line `k` (from 0) has the number `k + 1`. */
  function ScriptActions(lines: seq<string>, n: nat): (r: seq<Step>)
    requires n <= |lines|
  {
    if n == 0 then [] else ScriptActions(lines, n - 1) + LineSteps(lines[n - 1], n)
  }

  /** The actions of the line `text`, numbered `line`. */
  function LineSteps(text: string, line: nat): (r: seq<Step>)
  {
    LineActions(LineCommands(Tokens(text)), line)
  }

  /** The actions of the commands of one line. */
  function LineActions(cmds: seq<seq<string>>, line: nat): (r: seq<Step>)
    requires forall k :: 0 <= k < |cmds| ==> cmds[k] != []
    ensures |r| == |cmds|
  {
    if cmds == [] then [] else [Step(line, Dispatch(cmds[0]))] + LineActions(cmds[1..], line)
  }

  /** The actions of a line are its commands, dispatched one by one, in order. */
  lemma {:induction false} LineActionsInOrder(cmds: seq<seq<string>>, line: nat)
    requires forall k :: 0 <= k < |cmds| ==> cmds[k] != []
    ensures forall k :: 0 <= k < |cmds| ==> LineActions(cmds, line)[k] == Step(line, Dispatch(cmds[k]))
    decreases |cmds|
  {
    if cmds != [] {
      LineActionsInOrder(cmds[1..], line);
    }
  }

  /**
   * The outer loop of `main`: one line after another, `tracker.line`
   * counting from 1, each command dispatched as soon as it is formed.
   */
  method ReadScript(lines: seq<string>) returns (steps: seq<Step>)
    ensures steps == ScriptActions(lines, |lines|)
  {
    steps := [];
    var line := 1;
    var n := 0;
    while n < |lines|
      invariant n <= |lines| && line == n + 1
      invariant steps == ScriptActions(lines, n)
      decreases |lines| - n
    {
      var here := ReadLineActions(lines[n], line);
      steps := steps + here;
      n, line := n + 1, line + 1;
    }
  }

  /** One pass of the outer loop: the line is cut into tokens, grouped into commands, and each command dispatched. */
  method ReadLineActions(text: string, line: nat) returns (steps: seq<Step>)
    ensures steps == LineSteps(text, line)
  {
    var cmds := ReadLine(Tokens(text));
    steps := DispatchLine(cmds, line);
  }

  /** The dispatch of the commands of one line, in order. */
  method DispatchLine(cmds: seq<seq<string>>, line: nat) returns (steps: seq<Step>)
    requires forall k :: 0 <= k < |cmds| ==> cmds[k] != []
    ensures steps == LineActions(cmds, line)
  {
    steps := [];
    var k := 0;
    while k < |cmds|
      invariant k <= |cmds| && |steps| == k
      invariant forall j :: 0 <= j < k ==> steps[j] == Step(line, Dispatch(cmds[j]))
      decreases |cmds| - k
    {
      steps := steps + [Step(line, Dispatch(cmds[k]))];
      k := k + 1;
    }
    LineActionsInOrder(cmds, line);
  }

  /** Every action read from the first `n` lines carries the number of one of those lines, counting from 1. */
  lemma {:induction false} StepsCarryTheirLine(lines: seq<string>, n: nat)
    requires n <= |lines|
    ensures forall k :: 0 <= k < |ScriptActions(lines, n)| ==> 1 <= ScriptActions(lines, n)[k].line <= n
    decreases n
  {
    if n > 0 {
      StepsCarryTheirLine(lines, n - 1);
      var before := ScriptActions(lines, n - 1);
      var here := LineSteps(lines[n - 1], n);
      var all: seq<Step> := before + here;
      assert ScriptActions(lines, n) == all;
      LineActionsInOrder(LineCommands(Tokens(lines[n - 1])), n);
      forall k | 0 <= k < |all|
        ensures 1 <= all[k].line <= n
      {
        if k >= |before| {
          assert all[k] == here[k - |before|];
        }
      }
    }
  }

  /** A command as `main` hands it on: 1 to 32 tokens, no comment, and only its first token may begin a command. */
  predicate WellFormed(command: seq<string>) {
    && 1 <= |command| <= MaxArgs
    && (forall k :: 0 <= k < |command| ==> !IsComment(command[k]))
    && (forall k :: 1 <= k < |command| ==> !StartsCommand(command[k]))
  }

  /** Every command the loop forms is well formed. */
  lemma {:induction false} CommandsWellFormed(ts: seq<string>, i: nat)
    requires i <= |ts|
    ensures forall k :: 0 <= k < |Commands(ts, i)| ==> WellFormed(Commands(ts, i)[k])
    decreases |ts| - i
  {
    var g := Gather(ts, i, []);
    GatherShape(ts, i, []);
    if g.command != [] && g.next.Some? {
      CommandsWellFormed(ts, g.next.value);
    }
  }

  /** All the tokens of a list of commands, in order. */
  function Flatten(cs: seq<seq<string>>): (r: seq<string>) {
    if cs == [] then [] else cs[0] + Flatten(cs[1..])
  }

  /** The tokens before the first comment. */
  function Uncommented(ts: seq<string>): (r: seq<string>)
    ensures |r| <= |ts|
  {
    if ts == [] || IsComment(ts[0]) then [] else [ts[0]] + Uncommented(ts[1..])
  }

  /** The uncommented part is the longest prefix free of comments: the token after it, if any, is a comment. */
  lemma {:induction false} UncommentedIsCommentFreePrefix(ts: seq<string>)
    ensures var r := Uncommented(ts);
      && r == ts[..|r|]
      && (forall k :: 0 <= k < |r| ==> !IsComment(r[k]))
      && (|r| < |ts| ==> IsComment(ts[|r|]))
    decreases |ts|
  {
    if ts != [] && !IsComment(ts[0]) {
      var tail := ts[1..];
      UncommentedIsCommentFreePrefix(tail);
      var r := Uncommented(ts);
      assert r == [ts[0]] + Uncommented(tail);
      assert ts[..|r|] == [ts[0]] + tail[..|r| - 1];
    }
  }

  /** Tokens with no comment among them pass whole into the uncommented part. */
  lemma {:induction false} UncommentedSplit(ts: seq<string>, i: nat, j: nat)
    requires i <= j <= |ts|
    requires forall k :: i <= k < j ==> !IsComment(ts[k])
    ensures Uncommented(ts[i..]) == ts[i..j] + Uncommented(ts[j..])
    decreases j - i
  {
    if i < j {
      var s, tail := ts[i..], ts[i + 1..];
      assert s[0] == ts[i] && s[1..] == tail;
      assert Uncommented(s) == [ts[i]] + Uncommented(tail);
      UncommentedSplit(ts, i + 1, j);
      assert ts[i..j] == [ts[i]] + ts[i + 1..j];
      assert [ts[i]] + (ts[i + 1..j] + Uncommented(ts[j..])) == ([ts[i]] + ts[i + 1..j]) + Uncommented(ts[j..]);
    } else {
      assert ts[i..j] == [];
    }
  }

  /** When the inner loop reaches the end of the line or a comment, it has taken every token before the first comment. */
  lemma {:induction false} GatherEnds(ts: seq<string>, i: nat, command: seq<string>)
    requires i <= |ts| && |command| < MaxArgs
    requires Gather(ts, i, command).next.None?
    ensures Gather(ts, i, command).command == command + Uncommented(ts[i..])
    decreases |ts| - i
  {
    if i == |ts| || IsComment(ts[i]) {
      assert Uncommented(ts[i..]) == [];
    } else {
      var tail := ts[i + 1..];
      assert ts[i..] == [ts[i]] + tail;
      assert Uncommented(ts[i..]) == [ts[i]] + Uncommented(tail);
      GatherEnds(ts, i + 1, command + [ts[i]]);
    }
  }

  /** When the inner loop stops at token `j`, it has taken exactly the tokens from `i` up to `j`, none of them a comment. */
  lemma {:induction false} GatherStops(ts: seq<string>, i: nat, command: seq<string>, j: nat)
    requires i <= |ts| && |command| < MaxArgs
    requires Gather(ts, i, command).next == Some(j)
    ensures i <= j && Gather(ts, i, command).command == command + ts[i..j]
    ensures forall k :: i <= k < j ==> !IsComment(ts[k])
    decreases |ts| - i
  {
    if command != [] && StartsCommand(ts[i]) {
      assert ts[i..i] == [];
    } else if |command| + 1 >= MaxArgs {
      assert ts[i..i + 1] == [ts[i]];
    } else {
      GatherStops(ts, i + 1, command + [ts[i]], j);
      assert ts[i..j] == [ts[i]] + ts[i + 1..j];
    }
  }

  /** The commands of a line hold every token before the first comment exactly once, in order. */
  lemma {:induction false} CommandsCoverTokens(ts: seq<string>, i: nat)
    requires i <= |ts|
    ensures Flatten(Commands(ts, i)) == Uncommented(ts[i..])
    decreases |ts| - i
  {
    var g := Gather(ts, i, []);
    if g.command == [] {
      GatherEnds(ts, i, []);
    } else {
      match g.next
      case None =>
        GatherEnds(ts, i, []);
        assert Commands(ts, i) == [g.command];
      case Some(j) =>
        GatherStops(ts, i, [], j);
        UncommentedSplit(ts, i, j);
        CommandsCoverTokens(ts, j);
        var cs := Commands(ts, i);
        assert cs == [g.command] + Commands(ts, j);
        assert cs[1..] == Commands(ts, j);
    }
  }

  /** Every token of a line before its first comment ends up in exactly one command, in order. */
  lemma LineCommandsCoverTokens(ts: seq<string>)
    ensures Flatten(LineCommands(ts)) == Uncommented(ts)
  {
    if ts != [] && !IsComment(ts[0]) {
      CommandsCoverTokens(ts, 0);
      assert ts[0..] == ts;
    }
  }

  // ---------------------------------------------------------------- the inner loop as written

  /**
   * The inner loop, as written, from token `i` with `command` collected so
   * far. `next` is `None` when `pch` became null (end of line, or a comment);
   * otherwise the token `pch` still points at. On reaching 32 tokens the loop
   * stops without moving `pch` on, so that token is still current.
   */
  function GatherAsWritten(ts: seq<string>, i: nat, command: seq<string>): (r: Gathered)
    requires i <= |ts| && |command| < MaxArgs
    ensures |command| <= |r.command| <= MaxArgs
    ensures command == [] && r.command != [] && r.next.Some? ==> i < r.next.value < |ts|
    ensures r.next.Some? ==> i <= r.next.value < |ts| && r.command != []
    decreases |ts| - i
  {
    if i == |ts| || IsComment(ts[i]) then Gathered(command, None)
    else if command != [] && StartsCommand(ts[i]) then Gathered(command, Some(i))
    else if |command| + 1 >= MaxArgs then Gathered(command + [ts[i]], Some(i))
    else GatherAsWritten(ts, i + 1, command + [ts[i]])
  }

  /** The commands of a line from token `i` on: the `do ... while(pch)` loop around `GatherAsWritten`. */
  function CommandsAsWritten(ts: seq<string>, i: nat): (r: seq<seq<string>>)
    requires i <= |ts|
    ensures forall k :: 0 <= k < |r| ==> r[k] != []
    decreases |ts| - i
  {
    var g := GatherAsWritten(ts, i, []);
    if g.command == [] then []
    else
      match g.next
      case None => [g.command]
      case Some(j) => [g.command] + CommandsAsWritten(ts, j)
  }

  /** The commands of one line, as written. */
  function LineCommandsAsWritten(ts: seq<string>): (r: seq<seq<string>>)
    ensures forall k :: 0 <= k < |r| ==> r[k] != []
  {
    if ts == [] || IsComment(ts[0]) then [] else CommandsAsWritten(ts, 0)
  }

  /**
   * A line of exactly 32 plain tokens: the loop stops at the 32nd token without
   * moving on, and the next pass starts a second command with that same token.
   */
  lemma {:induction false} FullCommandRepeatsLastToken(ts: seq<string>)
    requires |ts| == MaxArgs
    requires forall k :: 0 <= k < |ts| ==> !IsComment(ts[k]) && !StartsCommand(ts[k])
    ensures LineCommandsAsWritten(ts) == [ts, [ts[MaxArgs - 1]]]
    ensures |Flatten(LineCommandsAsWritten(ts))| == MaxArgs + 1
  {
    GatherPlain(ts, 0, []);
    assert [] + ts[0..MaxArgs] == ts;
    assert GatherAsWritten(ts, 0, []) == Gathered(ts, Some(MaxArgs - 1));
    GatherPlain(ts, MaxArgs - 1, []);
    assert [] + ts[MaxArgs - 1..] == [ts[MaxArgs - 1]];
    assert GatherAsWritten(ts, MaxArgs - 1, []) == Gathered([ts[MaxArgs - 1]], None);
    assert CommandsAsWritten(ts, 0) == [ts] + CommandsAsWritten(ts, MaxArgs - 1);
    assert CommandsAsWritten(ts, MaxArgs - 1) == [[ts[MaxArgs - 1]]];
    var cs := [ts, [ts[MaxArgs - 1]]];
    assert cs[1..] == [[ts[MaxArgs - 1]]];
    assert Flatten(cs) == ts + Flatten(cs[1..]);
    assert Flatten(cs[1..]) == [ts[MaxArgs - 1]] + Flatten([]);
  }

  /** The inner loop as written, over tokens that neither comment nor begin a command. */
  lemma {:induction false} GatherPlain(ts: seq<string>, i: nat, command: seq<string>)
    requires i <= |ts| && |command| < MaxArgs
    requires forall k :: i <= k < |ts| ==> !IsComment(ts[k]) && !StartsCommand(ts[k])
    ensures var last := i + MaxArgs - 1 - |command|;
      GatherAsWritten(ts, i, command) ==
        if last < |ts| then Gathered(command + ts[i..last + 1], Some(last))
        else Gathered(command + ts[i..], None)
    decreases |ts| - i
  {
    var last := i + MaxArgs - 1 - |command|;
    if i == |ts| {
      assert command + ts[i..] == command;
    } else if |command| + 1 >= MaxArgs {
      assert ts[i..last + 1] == [ts[i]];
    } else {
      GatherPlain(ts, i + 1, command + [ts[i]]);
      if last < |ts| {
        assert (command + [ts[i]]) + ts[i + 1..last + 1] == command + ts[i..last + 1];
      } else {
        assert (command + [ts[i]]) + ts[i + 1..] == command + ts[i..];
      }
    }
  }
}
