/** What one command does, as a value: the replies sent back to the bot, in
    order, the lines written to the server process, in order, and whether
    the server is running afterwards. The supervisor's `Command` method is
    proved to have exactly this effect. */
module Dispatcher {
  import opened Wrappers
  import opened Strings
  import opened Protocol

  datatype Effect = Effect(replies: seq<Message>, writes: seq<string>, running: bool)

  const NotRunning: string := "Minecraft Server is not running"
  const Usage: string := "Usage: !mc whitelist <add|remove|list> [player]"

  /** The command names the dispatcher recognises. */
  predicate IsKnown(cmd: string) {
    cmd in {"help", "start", "stop", "ping", "status", "whitelist"}
  }

  /** The subcommand word of a whitelist change. */
  function Verb(add: bool): string {
    if add then "add" else "remove"
  }

  lemma VerbIsWord(add: bool)
    ensures IsWord(Verb(add))
  {
  }

  /** The server console command that adds or removes a player. */
  function WhitelistEdit(add: bool, player: string): string {
    (if add then "whitelist add " else "whitelist remove ") + player
  }

  /** The `whitelist` command: `list` with any further words, or `add` /
      `remove` with exactly one player name; anything else is a usage error. */
  function Whitelist(running: bool, args: Option<string>): Effect
    requires ArgsNormal(args)
  {
    if args.None? || args.value == [] then
      Effect([Message(ERR, Usage)], [], running)
    else
      StrippedHasWord(args.value);
      var ws := Words(args.value);
      if ws[0] == "list" then
        if running then
          Effect([Message(OK, "Success - check the log for current whitelist")],
                 [Line("whitelist list")], running)
        else Effect([Message(ERR, NotRunning)], [], running)
      else if ws[0] == "add" && |ws| == 2 then
        if running then
          Effect([Message(OK, "User added to whitelist")],
                 [Line(WhitelistEdit(true, ws[1])), Line("whitelist reload")], running)
        else Effect([Message(ERR, NotRunning)], [], running)
      else if ws[0] == "remove" && |ws| == 2 then
        if running then
          Effect([Message(OK, "User removed from whitelist")],
                 [Line(WhitelistEdit(false, ws[1])), Line("whitelist reload")], running)
        else Effect([Message(ERR, NotRunning)], [], running)
      else
        Effect([Message(ERR, Usage)], [], running)
  }

  /** One command, given whether the server is running when it arrives. */
  function Dispatch(running: bool, cmd: string, args: Option<string>): Effect
    requires ArgsNormal(args)
  {
    if cmd == "help" then
      Effect([Message(OK, HelpMsg)], [], running)
    else if cmd == "start" then
      if running then Effect([Message(ERR, "Minecraft server is already running")], [], true)
      else Effect([Message(OK, "Minecraft server starting")], [], true)
    else if cmd == "stop" then
      if running then Effect([Message(OK, "Minecraft server stopped")], [Line("stop")], false)
      else Effect([Message(ERR, NotRunning)], [], false)
    else if cmd == "ping" then
      Effect([Message(OK, "pong")], [], running)
    else if cmd == "status" then
      if running then Effect([Message(OK, "Minecraft Server is running")], [], running)
      else Effect([Message(OK, NotRunning)], [], running)
    else if cmd == "whitelist" then
      Whitelist(running, args)
    else
      Effect([Message(ERR, "Unknown command: " + cmd), Message(OK, HelpMsg)], [], running)
  }

  /** One received line: parsed by the listener loop, then dispatched. */
  function Respond(running: bool, line: string): Effect {
    var c := ParseCommand(line);
    Dispatch(running, c.name, c.args)
  }

  // ---------------------------------------------------------------------
  // Properties of every command.

  /** Nothing is written to the server process while it is stopped. */
  lemma NoWritesWhenStopped(cmd: string, args: Option<string>)
    requires ArgsNormal(args)
    ensures Dispatch(false, cmd, args).writes == []
  {
  }

  /** Only `start` and `stop` change whether the server runs; afterwards
      `start` always leaves it running and `stop` always leaves it stopped. */
  lemma RunningAfter(running: bool, cmd: string, args: Option<string>)
    requires ArgsNormal(args)
    ensures Dispatch(running, cmd, args).running ==
      if cmd == "start" then true else if cmd == "stop" then false else running
  {
  }

  /** A recognised command gets exactly one reply, any other exactly two;
      no reply is ever tagged as server log output. */
  lemma ReplyShape(running: bool, cmd: string, args: Option<string>)
    requires ArgsNormal(args)
    ensures |Dispatch(running, cmd, args).replies| == if IsKnown(cmd) then 1 else 2
    ensures forall i :: 0 <= i < |Dispatch(running, cmd, args).replies| ==>
      Dispatch(running, cmd, args).replies[i].tag != LOG
  {
  }

  /** Replies never tagged as log output, as they go on the wire, all reach
      the bot channel (never the log channel), each routed by its own tag. */
  lemma {:induction false} StatusRoutes(ms: seq<Message>)
    requires forall i :: 0 <= i < |ms| ==> ms[i].tag != LOG
    ensures forall i :: 0 <= i < |ms| ==>
      '|' in Line(Format(ms[i])) &&
      Classify(Line(Format(ms[i]))) == Delivered(Message(ms[i].tag, ms[i].payload + "\n")) &&
      Classify(Line(Format(ms[i]))).ToStatus?
  {
    forall i | 0 <= i < |ms|
      ensures '|' in Line(Format(ms[i]))
      ensures Classify(Line(Format(ms[i]))) == Delivered(Message(ms[i].tag, ms[i].payload + "\n"))
    {
      ClassifySentLine(ms[i]);
    }
  }

  /** Every reply the dispatcher sends reaches the bot channel: an `OK` reply
      with its payload, an `ERR` reply with `"ERR: "` in front. */
  lemma RepliesReachBotChannel(running: bool, cmd: string, args: Option<string>)
    requires ArgsNormal(args)
    ensures var ms := Dispatch(running, cmd, args).replies;
      forall i :: 0 <= i < |ms| ==>
        '|' in Line(Format(ms[i])) &&
        Classify(Line(Format(ms[i]))) == Delivered(Message(ms[i].tag, ms[i].payload + "\n")) &&
        Classify(Line(Format(ms[i]))).ToStatus?
  {
    ReplyShape(running, cmd, args);
    StatusRoutes(Dispatch(running, cmd, args).replies);
  }

  // ---------------------------------------------------------------------
  // Command by command.

  /** `start` refuses when the server already runs and otherwise starts it. */
  lemma StartCommand(running: bool, args: Option<string>)
    requires ArgsNormal(args)
    ensures Dispatch(running, "start", args) ==
      if running then Effect([Message(ERR, "Minecraft server is already running")], [], true)
      else Effect([Message(OK, "Minecraft server starting")], [], true)
  {
  }

  /** `stop` writes exactly `stop` to a running server and leaves it
      stopped; on a stopped server it writes nothing. */
  lemma StopCommand(running: bool, args: Option<string>)
    requires ArgsNormal(args)
    ensures Dispatch(running, "stop", args) ==
      if running then Effect([Message(OK, "Minecraft server stopped")], [Line("stop")], false)
      else Effect([Message(ERR, "Minecraft Server is not running")], [], false)
  {
  }

  /** `help`, `ping` and `status` each send one `OK` reply, write nothing
      and leave the server as it is; only `status` depends on the flag. */
  lemma QueryCommands(running: bool, cmd: string, args: Option<string>)
    requires ArgsNormal(args)
    requires cmd == "help" || cmd == "ping" || cmd == "status"
    ensures var e := Dispatch(running, cmd, args);
      |e.replies| == 1 && e.replies[0].tag == OK && e.writes == [] && e.running == running
    ensures cmd == "help" ==> Dispatch(running, cmd, args).replies[0].payload == HelpMsg
    ensures cmd == "ping" ==> Dispatch(running, cmd, args).replies[0].payload == "pong"
    ensures cmd == "status" ==>
      Dispatch(running, cmd, args).replies[0].payload ==
        (if running then "Minecraft Server is running" else "Minecraft Server is not running")
  {
  }

  /** An unrecognised command is answered with an error naming it and then
      the help text, and changes nothing. */
  lemma UnknownCommand(running: bool, cmd: string, args: Option<string>)
    requires ArgsNormal(args)
    requires !IsKnown(cmd)
    ensures Dispatch(running, cmd, args) ==
      Effect([Message(ERR, "Unknown command: " + cmd), Message(OK, HelpMsg)], [], running)
  {
  }

  /** The argument words of a `whitelist` command that it rejects. */
  predicate Malformed(ws: seq<string>) {
    ws == []
    || (ws[0] != "list" && ws[0] != "add" && ws[0] != "remove")
    || ((ws[0] == "add" || ws[0] == "remove") && |ws| != 2)
  }

  /** A malformed `whitelist` command gets the usage error whether or not the
      server is running, and writes nothing. */
  lemma WhitelistMisuse(running: bool, args: Option<string>)
    requires ArgsNormal(args)
    requires args.None? || Malformed(Words(args.value))
    ensures Dispatch(running, "whitelist", args) == Effect([Message(ERR, Usage)], [], running)
  {
    if args.Some? && args.value != [] {
      StrippedHasWord(args.value);
    }
  }

  /** A `whitelist` command writes to the server exactly when the server runs
      and the command is well formed. */
  lemma WhitelistWritesIff(running: bool, args: Option<string>)
    requires ArgsNormal(args)
    ensures Dispatch(running, "whitelist", args).writes != [] <==>
      running && args.Some? && !Malformed(Words(args.value))
  {
    if args.Some? && args.value != [] {
      StrippedHasWord(args.value);
    } else if args.Some? {
      WordsEmptyIff(args.value);
    }
  }

  /** A `whitelist` command is handled by the whitelist branch alone. */
  lemma DispatchWhitelist(running: bool, args: Option<string>)
    requires ArgsNormal(args)
    ensures Dispatch(running, "whitelist", args) == Whitelist(running, args)
  {
  }

  /** Argument text that splits into a verb and one player name writes the
      change and then `whitelist reload` to a running server, and only
      reports that the server is not running otherwise. */
  lemma WhitelistChange(running: bool, add: bool, a: string, player: string)
    requires ArgsNormal(Some(a)) && IsWord(player)
    requires Words(a) == [Verb(add), player]
    ensures Whitelist(running, Some(a)) ==
      if running then
        Effect([Message(OK, if add then "User added to whitelist" else "User removed from whitelist")],
               [Line(WhitelistEdit(add, player)), Line("whitelist reload")], true)
      else Effect([Message(ERR, NotRunning)], [], false)
  {
    assert a != [];
  }

  /** Argument text whose first word is `list` lists the whitelist whatever
      follows, writing only `whitelist list` to a running server. */
  lemma WhitelistList(running: bool, a: string)
    requires ArgsNormal(Some(a))
    requires Words(a) != [] && Words(a)[0] == "list"
    ensures Whitelist(running, Some(a)) ==
      if running then
        Effect([Message(OK, "Success - check the log for current whitelist")],
               [Line("whitelist list")], true)
      else Effect([Message(ERR, NotRunning)], [], false)
  {
    assert a != [];
  }

  // ---------------------------------------------------------------------
  // Whole lines, as the listener receives them.

  /** The listener's split: a name, a space and any text dispatch the name
      with the text, trailing blanks removed, as its arguments. */
  lemma RespondSplitsName(running: bool, name: string, rest: string)
    requires ' ' !in name
    ensures Respond(running, name + " " + rest) == Dispatch(running, name, Some(RStrip(rest)))
  {
    ParseCommandWithArgs(name, rest);
  }

  /** A `whitelist` line dispatches its argument text, trailing blanks
      removed, to the whitelist branch. */
  lemma RespondWhitelist(running: bool, rest: string)
    ensures Respond(running, "whitelist " + rest) == Whitelist(running, Some(RStrip(rest)))
  {
    assert "whitelist " + rest == "whitelist" + " " + rest;
    RespondSplitsName(running, "whitelist", rest);
    DispatchWhitelist(running, Some(RStrip(rest)));
  }

  /** A verb and one player name: nothing to strip, and two words. */
  lemma VerbAndName(add: bool, player: string)
    requires IsWord(player)
    ensures var a := Verb(add) + " " + player;
      RStrip(a) == a && Words(a) == [Verb(add), player]
  {
    var a := Verb(add) + " " + player;
    assert a[|a| - 1] == player[|player| - 1];
    VerbIsWord(add);
    WordsPair(Verb(add), player);
  }

  /** A verb and two player names: nothing to strip, and three words, which
      the whitelist branch rejects. */
  lemma VerbAndTwoNames(add: bool, p: string, q: string)
    requires IsWord(p) && IsWord(q)
    ensures var a := Verb(add) + " " + p + " " + q;
      RStrip(a) == a && Malformed(Words(a))
  {
    var a := Verb(add) + " " + p + " " + q;
    assert a[|a| - 1] == q[|q| - 1];
    VerbIsWord(add);
    WordsTriple(Verb(add), p, q);
  }

  /** `whitelist add <player>` (or `remove`), with or without trailing blanks,
      writes the change and then `whitelist reload` when the server runs,
      and only reports that it is not running otherwise. */
  lemma WhitelistChangeLine(running: bool, add: bool, player: string, pad: string)
    requires IsWord(player) && AllSpace(pad)
    ensures Respond(running, "whitelist " + Verb(add) + " " + player + pad) ==
      if running then
        Effect([Message(OK, if add then "User added to whitelist" else "User removed from whitelist")],
               [Line(WhitelistEdit(add, player)), Line("whitelist reload")], true)
      else Effect([Message(ERR, NotRunning)], [], false)
  {
    var a := Verb(add) + " " + player;
    assert "whitelist " + Verb(add) + " " + player + pad == "whitelist " + (a + pad);
    RespondWhitelist(running, a + pad);
    RStripAppendSpace(a, pad);
    VerbAndName(add, player);
    WhitelistChange(running, add, a, player);
  }

  /** `whitelist add` or `remove` with two names after it is a usage error. */
  lemma WhitelistTooManyNames(running: bool, add: bool, p: string, q: string)
    requires IsWord(p) && IsWord(q)
    ensures Respond(running, "whitelist " + Verb(add) + " " + p + " " + q) ==
      Effect([Message(ERR, Usage)], [], running)
  {
    var a := Verb(add) + " " + p + " " + q;
    assert "whitelist " + Verb(add) + " " + p + " " + q == "whitelist " + a;
    RespondWhitelist(running, a);
    VerbAndTwoNames(add, p, q);
    WhitelistMisuse(running, Some(a));
  }

  /** `whitelist add` or `remove` with no name is a usage error. */
  lemma WhitelistNoName(running: bool, add: bool)
    ensures Respond(running, "whitelist " + Verb(add)) ==
      Effect([Message(ERR, Usage)], [], running)
  {
    var a := Verb(add);
    RespondWhitelist(running, a);
    assert RStrip(a) == a;
    VerbIsWord(add);
    WordsSingle(a);
    WhitelistMisuse(running, Some(a));
  }

  /** `whitelist list` ignores whatever follows it and writes only
      `whitelist list` when the server runs. */
  lemma WhitelistListLine(running: bool, extra: string)
    ensures Respond(running, "whitelist list " + extra) ==
      if running then
        Effect([Message(OK, "Success - check the log for current whitelist")],
               [Line("whitelist list")], true)
      else Effect([Message(ERR, NotRunning)], [], false)
  {
    var rest := "list " + extra;
    assert "whitelist list " + extra == "whitelist " + rest;
    RespondWhitelist(running, rest);
    ListStaysFirst(extra);
    WhitelistList(running, RStrip(rest));
  }

  lemma ListIsWord()
    ensures IsWord("list")
  {
  }

  /** Whatever follows `list `, the first word left after stripping
      trailing blanks is `list`. */
  lemma ListStaysFirst(x: string)
    ensures Words(RStrip("list " + x)) != []
    ensures Words(RStrip("list " + x))[0] == "list"
  {
    var s := "list " + x;
    var a := RStrip(s);
    RStripSpec(s);
    assert s[3] == 't';
    assert a[..4] == s[..4] == "list";
    if |a| > 4 {
      assert a[4] == s[4];
    }
    var tail := a[4..];
    assert a == "list" + tail;
    ListIsWord();
    WordsCons("list", tail);
  }

  // ---------------------------------------------------------------------
  // Worked examples.

  /** The pieces of the line `whitelist add Steve`. */
  lemma SteveLine()
    ensures IsWord("Steve")
    ensures "whitelist " + Verb(true) + " " + "Steve" + "" == "whitelist add Steve"
    ensures WhitelistEdit(true, "Steve") == "whitelist add Steve"
  {
  }

  lemma ExampleWhitelistAddSteve()
    ensures Respond(true, "whitelist add Steve") ==
      Effect([Message(OK, "User added to whitelist")],
             [Line("whitelist add Steve"), Line("whitelist reload")], true)
  {
    SteveLine();
    WhitelistChangeLine(true, true, "Steve", "");
  }

  lemma ExampleStatusStopped()
    ensures Respond(false, "status") ==
      Effect([Message(OK, "Minecraft Server is not running")], [], false)
  {
    ParseCommandBare("status");
  }

  lemma ExampleUnknownFoo(running: bool)
    ensures Respond(running, "foo") ==
      Effect([Message(ERR, "Unknown command: foo"), Message(OK, HelpMsg)], [], running)
  {
    ParseCommandBare("foo");
    assert "Unknown command: " + "foo" == "Unknown command: foo";
  }

  lemma ExampleWhitelistAlone(running: bool)
    ensures Respond(running, "whitelist") == Effect([Message(ERR, Usage)], [], running)
  {
    ParseCommandBare("whitelist");
    WhitelistMisuse(running, None);
  }
}
