/** The line protocol between the server manager and the bot: outbound
    messages are `"<tag>|<payload>"` with the tag padded to four columns,
    inbound commands are `"<name>[ <args>]"`. */
module Protocol {
  import opened Wrappers
  import opened Strings

  /** The tags the manager sends; the bot tolerates any other. */
  datatype Tag = LOG | OK | ERR

  /** A message before framing. */
  datatype Message = Message(tag: Tag, payload: string)

  /** The padded tag column as the manager writes it. */
  function TagField(t: Tag): string {
    match t
    case LOG => "LOG "
    case OK => "OK  "
    case ERR => "ERR "
  }

  /** The tag as the bot reads it back after `strip()`. */
  function TagName(t: Tag): string {
    match t
    case LOG => "LOG"
    case OK => "OK"
    case ERR => "ERR"
  }

  /** A message on one line, split from its tag by the first `|`. */
  function Format(m: Message): string {
    TagField(m.tag) + "|" + m.payload
  }

  /** The newline the sender appends: `try_send` to the bot, `mc_write` to
      the server process. */
  function Line(s: string): string {
    s + "\n"
  }

  /** The text of the bot help message. It holds `|` itself, so a reader
      must split a reply on the first `|` only. */
  const HelpMsg: string :=
    "ServerBot Minecraft commands:\n"
    + "!mc help - print this message\n"
    + "!mc ping - ping the server\n"
    + "!mc status - check the server status\n"
    + "!mc start - start the server\n"
    + "!mc stop - stop the server\n"
    + "!mc whitelist <add|remove"
    + "|list> [player] - list or modify the whitelist"

  lemma HelpMsgHasBar()
    ensures '|' in HelpMsg
  {
    var head := "ServerBot Minecraft commands:\n"
      + "!mc help - print this message\n"
      + "!mc ping - ping the server\n"
      + "!mc status - check the server status\n"
      + "!mc start - start the server\n"
      + "!mc stop - stop the server\n";
    var usage := "!mc whitelist <add|remove";
    var rest := "|list> [player] - list or modify the whitelist";
    assert HelpMsg == head + usage + rest;
    assert usage[18] == '|';
    assert HelpMsg[|head| + 18] == '|';
  }

  // ---------------------------------------------------------------------
  // Inbound: the command line read by the listener loop.

  /** A command name and its optional argument text. */
  datatype Request = Request(name: string, args: Option<string>)

  /** What the listener hands to the dispatcher: no arguments, or argument
      text that does not end in a blank. */
  predicate ArgsNormal(args: Option<string>) {
    args.None? || args.value == [] || !IsSpace(args.value[|args.value| - 1])
  }

  /** Splits a received line on its first space; the rest, with trailing
      blanks removed, is the argument text. */
  function ParseCommand(line: string): (c: Request)
    ensures ArgsNormal(c.args)
  {
    var (cmd, rest) := SplitFirst(line, ' ');
    match rest
    case None => Request(cmd, None)
    case Some(tail) => Request(cmd, Some(RStrip(tail)))
  }

  /** The name is the text before the first space and holds none; there are
      arguments exactly when the line has a space, and they are the text
      after it with trailing blanks removed. */
  lemma ParseCommandSpec(line: string)
    ensures var c := ParseCommand(line);
      && ' ' !in c.name
      && (c.args.None? <==> ' ' !in line)
      && (c.args.None? ==> c.name == line)
      && (c.args.Some? ==>
            |c.name| < |line| && line[..|c.name|] == c.name && line[|c.name|] == ' '
            && c.args.value == RStrip(line[|c.name| + 1..]))
  {
    SplitFirstSpec(line, ' ');
    var (cmd, rest) := SplitFirst(line, ' ');
    if rest.Some? {
      assert line == cmd + [' '] + rest.value;
      assert line[..|cmd|] == cmd && line[|cmd| + 1..] == rest.value;
    }
  }

  /** A name alone parses to that command with no arguments. */
  lemma ParseCommandBare(name: string)
    requires ' ' !in name
    ensures ParseCommand(name) == Request(name, None)
  {
    ParseCommandSpec(name);
  }

  /** A name, one space and any text parse to the name and the text with
      its trailing blanks removed; spaces inside the text are kept. */
  lemma ParseCommandWithArgs(name: string, rest: string)
    requires ' ' !in name
    ensures ParseCommand(name + " " + rest) == Request(name, Some(RStrip(rest)))
  {
    SplitFirstJoin(name, ' ', rest);
  }

  // ---------------------------------------------------------------------
  // Outbound, bot side: the tag classifier of the receive loop.

  /** Where the bot forwards a received message. */
  datatype Route = ToLog(text: string) | ToStatus(text: string)

  /** `[status, msg] = line.split('|', 1)` followed by `status.strip()`. */
  function SplitTag(line: string): (string, string)
    requires '|' in line
  {
    var (status, rest) := SplitFirst(line, '|');
    (Strip(status), rest.value)
  }

  /** Routes a received line: `LOG` to the log channel, `OK` to the bot
      channel, any other tag to the bot channel with the tag in front. */
  function Classify(line: string): Route
    requires '|' in line
  {
    var (status, msg) := SplitTag(line);
    if status == "LOG" then ToLog(msg)
    else if status == "OK" then ToStatus(msg)
    else ToStatus(status + ": " + msg)
  }

  /** Any tag without a `|` and any payload, even one full of `|`, come back
      from the split as the stripped tag and the exact payload. */
  lemma SplitTagJoin(t: string, p: string)
    requires '|' !in t
    ensures '|' in t + "|" + p
    ensures SplitTag(t + "|" + p) == (Strip(t), p)
  {
    assert t + "|" + p == t + ['|'] + p;
    SplitFirstJoin(t, '|', p);
  }

  /** The padded tag column strips back to the tag's name. */
  lemma StripTagField(t: Tag)
    ensures Strip(TagField(t)) == TagName(t)
  {
    var n := TagName(t);
    var pad := if t == OK then "  " else " ";
    assert TagField(t) == n + pad;
    RStripAppendSpace(n, pad);
    assert !IsSpace(n[|n| - 1]) && !IsSpace(n[0]);
  }

  /** The framing round trip: the bot recovers the tag and the payload of
      every message the manager formats. */
  lemma FormatRoundTrip(m: Message)
    ensures '|' in Format(m)
    ensures SplitTag(Format(m)) == (TagName(m.tag), m.payload)
  {
    SplitTagJoin(TagField(m.tag), m.payload);
    StripTagField(m.tag);
  }

  /** What the bot posts for a message, by its tag. */
  function Delivered(m: Message): Route {
    match m.tag
    case LOG => ToLog(m.payload)
    case OK => ToStatus(m.payload)
    case ERR => ToStatus("ERR: " + m.payload)
  }

  /** The classifier routes every formatted message as its tag says. */
  lemma ClassifyFormat(m: Message)
    ensures '|' in Format(m)
    ensures Classify(Format(m)) == Delivered(m)
  {
    FormatRoundTrip(m);
  }

  /** A reply as `try_send` puts it on the wire (with its newline) is still
      classified by its tag, with the newline kept in the payload. */
  lemma ClassifySentLine(m: Message)
    ensures '|' in Line(Format(m))
    ensures Classify(Line(Format(m))) == Delivered(Message(m.tag, m.payload + "\n"))
  {
    var m' := Message(m.tag, m.payload + "\n");
    assert Line(Format(m)) == Format(m');
    ClassifyFormat(m');
  }

  /** The help reply, whose text holds `|` itself, still reaches the bot
      channel whole: only the first `|` separates the tag. */
  lemma HelpReplyRoutes()
    ensures '|' in Line(Format(Message(OK, HelpMsg)))
    ensures Classify(Line(Format(Message(OK, HelpMsg)))) == ToStatus(HelpMsg + "\n")
  {
    HelpMsgHasBar();
    ClassifySentLine(Message(OK, HelpMsg));
  }

  /** A received line whose tag the manager never sends is posted to the bot
      channel with the stripped tag in front. */
  lemma ClassifyOtherTag(t: string, p: string)
    requires '|' !in t
    requires Strip(t) != "LOG" && Strip(t) != "OK"
    ensures '|' in t + "|" + p
    ensures Classify(t + "|" + p) == ToStatus(Strip(t) + ": " + p)
  {
    SplitTagJoin(t, p);
  }
}
