/** The bot's side of the connection: the body of the receive loop started by
    `Minecraft.__init__`, which routes each received line to one of two chat
    channels. */
module Peer {
  import opened Protocol
  import opened Supervisor

  class Bot {
    /** Everything posted to the server-log channel, in order. */
    var logChannel: seq<string>
    /** Everything posted to the bot channel, in order. */
    var botChannel: seq<string>

    constructor ()
      ensures logChannel == [] && botChannel == []
    {
      logChannel := [];
      botChannel := [];
    }

    /** One received line: split on the first `|`, strip the tag, and post
        the payload where the tag says. */
    method Receive(line: string)
      requires '|' in line
      modifies this
      ensures Classify(line).ToLog? ==>
        logChannel == old(logChannel) + [Classify(line).text] && botChannel == old(botChannel)
      ensures Classify(line).ToStatus? ==>
        botChannel == old(botChannel) + [Classify(line).text] && logChannel == old(logChannel)
    {
      var (status, msg) := SplitTag(line);
      if status == "LOG" {
        logChannel := logChannel + [msg];
      } else if status == "OK" {
        botChannel := botChannel + [msg];
      } else {
        botChannel := botChannel + [status + ": " + msg];
      }
    }
  }

  /** A reply of the manager, once received, is posted to the bot channel as
      its tag says, with the newline `try_send` added. */
  method DeliverReply(bot: Bot, m: Message)
    requires m.tag != LOG
    modifies bot
    ensures bot.logChannel == old(bot.logChannel)
    ensures bot.botChannel == old(bot.botChannel) + [Delivered(Message(m.tag, m.payload + "\n")).text]
  {
    ClassifySentLine(m);
    bot.Receive(Line(Format(m)));
  }

  /** The manager answers `ping` and the bot posts `pong` to its channel. */
  method PingRoundTrip(manager: Manager, bot: Bot)
    modifies manager, bot
    ensures manager.sent == old(manager.sent) + [Line(Format(Message(OK, "pong")))]
    ensures manager.running == old(manager.running) && manager.writes == old(manager.writes)
    ensures bot.botChannel == old(bot.botChannel) + ["pong\n"]
    ensures bot.logChannel == old(bot.logChannel)
  {
    ParseCommandBare("ping");
    manager.HandleLine("ping");
    DeliverReply(bot, Message(OK, "pong"));
    assert "pong" + "\n" == "pong\n";
  }
}
