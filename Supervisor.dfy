/** The server manager's side: the supervised server process, reduced to
    whether it runs and what has been written to its input, and the
    connection to the bot, reduced to what has been sent on it. */
module Supervisor {
  import opened Wrappers
  import opened Strings
  import opened Protocol
  import opened Dispatcher

  /** Messages as `try_send` puts them on the wire, in order. */
  function Frames(ms: seq<Message>): seq<string> {
    if ms == [] then [] else [Line(Format(ms[0]))] + Frames(ms[1..])
  }

  /** One frame per message, in the same order. */
  lemma {:induction false} FramesSpec(ms: seq<Message>)
    ensures |Frames(ms)| == |ms|
    ensures forall i :: 0 <= i < |ms| ==> Frames(ms)[i] == Line(Format(ms[i]))
  {
    if ms != [] {
      FramesSpec(ms[1..]);
    }
  }

  class Manager {
    /** `proc` is set and `proc.poll()` says it has not exited. */
    var running: bool
    /** Every line written to the process's standard input, in order. */
    var writes: seq<string>
    /** Every line sent to the bot by `try_send`, in order. */
    var sent: seq<string>

    constructor ()
      ensures !running && writes == [] && sent == []
    {
      running := false;
      writes := [];
      sent := [];
    }

    /** `mc_running`. */
    method IsRunning() returns (r: bool)
      ensures r == running
    {
      r := running;
    }

    /** `try_send`: the message and a newline go to the bot. */
    method Send(msg: string)
      modifies this
      ensures sent == old(sent) + [Line(msg)]
      ensures running == old(running) && writes == old(writes)
    {
      sent := sent + [Line(msg)];
    }

    /** `mc_write`: the command and a newline go to the process; with no
        process there is nothing to write to and nothing changes. */
    method Write(cmd: string)
      modifies this
      ensures writes == old(writes) + (if old(running) then [Line(cmd)] else [])
      ensures running == old(running) && sent == old(sent)
    {
      if running {
        writes := writes + [Line(cmd)];
      }
    }

    /** `mc_start`: refuses while the server runs, otherwise starts it. */
    method Start() returns (started: bool)
      modifies this
      ensures started == !old(running)
      ensures running
      ensures writes == old(writes) && sent == old(sent)
    {
      var r := IsRunning();
      if r {
        started := false;
      } else {
        running := true;
        started := true;
      }
    }

    /** `mc_stop`: refuses while the server is stopped, otherwise writes
        `stop` and returns once the process has exited. */
    method Stop() returns (stopped: bool)
      modifies this
      ensures stopped == old(running)
      ensures !running
      ensures writes == old(writes) + (if stopped then [Line("stop")] else [])
      ensures sent == old(sent)
    {
      var r := IsRunning();
      if !r {
        stopped := false;
      } else {
        Write("stop");
        running := false;
        stopped := true;
      }
    }

    /** `mc_whitelist`: adds or removes a player and reloads the whitelist,
        if the server runs. */
    method ChangeWhitelist(name: string, add: bool) returns (ok: bool)
      modifies this
      ensures ok == old(running) && running == old(running)
      ensures writes == old(writes) +
        (if ok then [Line(WhitelistEdit(add, name)), Line("whitelist reload")] else [])
      ensures sent == old(sent)
    {
      var r := IsRunning();
      if !r {
        ok := false;
      } else {
        if add {
          Write("whitelist add " + name);
          Write("whitelist reload");
        } else {
          Write("whitelist remove " + name);
          Write("whitelist reload");
        }
        ok := true;
      }
    }

    /** `mc_ls_whitelist`: asks the server to print its whitelist, if it
        runs. */
    method ListWhitelist() returns (ok: bool)
      modifies this
      ensures ok == old(running) && running == old(running)
      ensures writes == old(writes) + (if ok then [Line("whitelist list")] else [])
      ensures sent == old(sent)
    {
      var r := IsRunning();
      if !r {
        ok := false;
      } else {
        Write("whitelist list");
        ok := true;
      }
    }

    /** `mc_command`: runs one command and answers it. */
    method Command(cmd: string, args: Option<string>)
      requires ArgsNormal(args)
      modifies this
      ensures running == Dispatch(old(running), cmd, args).running
      ensures writes == old(writes) + Dispatch(old(running), cmd, args).writes
      ensures sent == old(sent) + Frames(Dispatch(old(running), cmd, args).replies)
    {
      if cmd == "help" {
        Send(Format(Message(OK, HelpMsg)));
      } else if cmd == "start" {
        var result := Start();
        if result {
          Send(Format(Message(OK, "Minecraft server starting")));
        } else {
          Send(Format(Message(ERR, "Minecraft server is already running")));
        }
      } else if cmd == "stop" {
        var result := Stop();
        if result {
          Send(Format(Message(OK, "Minecraft server stopped")));
        } else {
          Send(Format(Message(ERR, "Minecraft Server is not running")));
        }
      } else if cmd == "ping" {
        Send(Format(Message(OK, "pong")));
      } else if cmd == "status" {
        var r := IsRunning();
        if r {
          Send(Format(Message(OK, "Minecraft Server is running")));
        } else {
          Send(Format(Message(OK, "Minecraft Server is not running")));
        }
      } else if cmd == "whitelist" {
        WhitelistCommand(args);
      } else {
        Send(Format(Message(ERR, "Unknown command: " + cmd)));
        Send(Format(Message(OK, HelpMsg)));
      }
    }

    /** The `whitelist` branch of `mc_command`. */
    method WhitelistCommand(args: Option<string>)
      requires ArgsNormal(args)
      modifies this
      ensures running == Whitelist(old(running), args).running
      ensures writes == old(writes) + Whitelist(old(running), args).writes
      ensures sent == old(sent) + Frames(Whitelist(old(running), args).replies)
    {
      if args.Some? && args.value != [] {
        StrippedHasWord(args.value);
        var arglist := Words(args.value);
        var wlCmd := arglist[0];
        var wlName: Option<string> := None;
        if |arglist| == 2 {
          wlName := Some(arglist[1]);
        }
        if wlCmd == "list" {
          var result := ListWhitelist();
          if result {
            Send(Format(Message(OK, "Success - check the log for current whitelist")));
          } else {
            Send(Format(Message(ERR, "Minecraft Server is not running")));
          }
          return;
        }
        if wlCmd == "add" && wlName.Some? {
          var result := ChangeWhitelist(wlName.value, true);
          if result {
            Send(Format(Message(OK, "User added to whitelist")));
          } else {
            Send(Format(Message(ERR, "Minecraft Server is not running")));
          }
          return;
        } else if wlCmd == "remove" && wlName.Some? {
          var result := ChangeWhitelist(wlName.value, false);
          if result {
            Send(Format(Message(OK, "User removed from whitelist")));
          } else {
            Send(Format(Message(ERR, "Minecraft Server is not running")));
          }
          return;
        }
      }
      Send(Format(Message(ERR, Usage)));
    }

    /** One pass of the listener loop: split the received line on its first
        space, strip the arguments, and run the command. */
    method HandleLine(line: string)
      modifies this
      ensures running == Respond(old(running), line).running
      ensures writes == old(writes) + Respond(old(running), line).writes
      ensures sent == old(sent) + Frames(Respond(old(running), line).replies)
    {
      var tokens := SplitFirst(line, ' ');
      var cmd := tokens.0;
      var args: Option<string> := None;
      if tokens.1.Some? {
        args := Some(RStrip(tokens.1.value));
      }
      assert ParseCommand(line) == Request(cmd, args);
      Command(cmd, args);
    }
  }
}
