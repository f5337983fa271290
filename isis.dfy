/**
 * backend/isis.py: the two command builders and `apply_configuration`,
 * which reads the opening output, then writes each command, drains what is
 * ready and logs it as a success whatever it says, and logs a single error
 * entry if anything raises.
 */
module Isis {
  import opened Wrappers
  import opened Text
  import opened Session

  /** `generate_isis_commands`. */
  function SetCommands(net: string, area: string, level: string): seq<string> {
    ["conf t", "router isis " + area, "net " + net, "is-type " + level, "exit", "wr"]
  }

  /** `generate_isis_delete_commands`. */
  function DeleteCommands(area: string): seq<string> {
    ["conf t", "no router isis " + area, "wr"]
  }

  /**
   * The builders have fixed lengths, and deletion is the configuration's
   * first, negated second and last commands: it enters configuration mode,
   * removes the same process and saves.
   */
  lemma DeleteMirrorsSet(net: string, area: string, level: string)
    ensures var cfg := SetCommands(net, area, level);
      && |cfg| == 6 && |DeleteCommands(area)| == 3
      && DeleteCommands(area) == [cfg[0], "no " + cfg[1], cfg[5]]
  {
    assert "no " + ("router isis " + area) == "no router isis " + area;
  }

  /** A document of the log collection: the `router_ip`, `user_ip`, `command`, `output` and `status` keys. */
  datatype LogEntry = LogEntry(routerIp: string, userIp: string, command: string, output: string, status: string)

  /** What the error entry holds for a value that was never obtained. */
  const Unknown := "unknown"

  /** The entry of each command on the success path: what was drained after writing it, logged as a success. */
  function CommandEntries(routerIp: string, userIp: string, respond: (seq<string>, string) -> string, commands: seq<string>): (es: seq<LogEntry>)
    ensures |es| == |commands|
    ensures forall i | 0 <= i < |commands| :: es[i].command == commands[i] && es[i].status == "success"
  {
    var replies := Replies("", respond, [], commands);
    seq(|commands|, i requires 0 <= i < |commands| => LogEntry(routerIp, userIp, commands[i], replies[i], "success"))
  }

  /** What `apply_configuration` returns, the entries it logs, and everything it writes to the shell. */
  datatype Outcome = Outcome(ok: bool, entries: seq<LogEntry>, written: seq<string>)

  /**
   * One call, the router record being given as `lookup`, the local address
   * as `userIp`. The error entry names what was known when the exception
   * was raised: no router after a failed lookup, no local address after a
   * failed connection; the opening `recv` raises a timeout when the router
   * has shown nothing.
   */
  function Apply(lookup: Result<Router>, link: Link, userIp: string, commands: seq<string>): (o: Outcome)
  {
    var joined := Join(" ", commands);
    match lookup
    case Err(m) => Outcome(false, [LogEntry(Unknown, Unknown, joined, m, "error")], [])
    case Ok(router) =>
      match link
      case Down(m) => Outcome(false, [LogEntry(router.ip, Unknown, joined, m, "error")], [])
      case Up(banner, respond) =>
        if banner == [] then Outcome(false, [LogEntry(router.ip, userIp, joined, TimeoutMessage, "error")], [])
        else Outcome(true, CommandEntries(router.ip, userIp, respond, commands), Terminated(commands))
  }

  /** The call returns `True` exactly when the router was found, the shell opened and it showed something. */
  lemma ApplySucceeds(lookup: Result<Router>, link: Link, userIp: string, commands: seq<string>)
    ensures Apply(lookup, link, userIp, commands).ok <==> lookup.Ok? && link.Up? && link.banner != []
  {
  }

  /**
   * There is no rejection check: whatever the router answers, a call that
   * gets past the opening read writes every command and logs one success
   * per command, in order.
   */
  lemma EveryCommandLogged(lookup: Result<Router>, link: Link, userIp: string, commands: seq<string>)
    requires Apply(lookup, link, userIp, commands).ok
    ensures var o := Apply(lookup, link, userIp, commands);
      && o.written == Terminated(commands)
      && |o.entries| == |commands|
      && forall i | 0 <= i < |commands| :: o.entries[i].command == commands[i] && o.entries[i].status == "success"
  {
  }

  /** A failed call logs exactly one entry: the error, against the whole command list joined by spaces. */
  lemma FailureLoggedOnce(lookup: Result<Router>, link: Link, userIp: string, commands: seq<string>)
    requires !Apply(lookup, link, userIp, commands).ok
    ensures var o := Apply(lookup, link, userIp, commands);
      && o.written == []
      && |o.entries| == 1
      && o.entries[0].status == "error"
      && o.entries[0].command == Join(" ", commands)
  {
  }

  /**
   * `apply_configuration`. The shell is closed on the success path only,
   * as in the source, where the error path never closes the client.
   */
  method ApplyConfiguration(lookup: Result<Router>, link: Link, userIp: string, commands: seq<string>, log: Log<LogEntry>)
    returns (ok: bool, shell: Shell?)
    modifies log
    ensures var o := Apply(lookup, link, userIp, commands);
      && ok == o.ok
      && log.entries == old(log.entries) + o.entries
      && (shell != null ==> fresh(shell) && shell.sent == o.written && shell.open == !ok)
      && (ok ==> shell != null)
  {
    var joined := Join(" ", commands);
    if lookup.Err? {
      log.Append(LogEntry(Unknown, Unknown, joined, lookup.message, "error"));
      return false, null;
    }
    var router := lookup.value;
    if link.Down? {
      log.Append(LogEntry(router.ip, Unknown, joined, link.message, "error"));
      return false, null;
    }
    shell := new Shell(link.banner, link.respond);
    if !shell.Ready() {
      log.Append(LogEntry(router.ip, userIp, joined, TimeoutMessage, "error"));
      return false, shell;
    }
    var initialOutput := shell.Recv();
    LogEachCommand(shell, router.ip, userIp, commands, log);
    shell.Close();
    ok := true;
  }

  /** The loop of `apply_configuration`: write a command, drain the ready output, log it as a success. */
  method LogEachCommand(shell: Shell, routerIp: string, userIp: string, commands: seq<string>, log: Log<LogEntry>)
    requires shell.sent == [] && shell.incoming == []
    modifies shell, log
    ensures log.entries == old(log.entries) + CommandEntries(routerIp, userIp, shell.respond, commands)
    ensures shell.sent == Terminated(commands) && shell.incoming == [] && shell.open == old(shell.open)
  {
    ghost var entries := CommandEntries(routerIp, userIp, shell.respond, commands);
    ghost var replies := Replies("", shell.respond, [], commands);
    for i := 0 to |commands|
      invariant shell.sent == Terminated(commands[..i]) && shell.incoming == [] && shell.open == old(shell.open)
      invariant log.entries == old(log.entries) + entries[..i]
    {
      shell.Send(commands[i] + "\n");
      var output := Drain(shell);
      assert output == replies[i] by {
        assert Concat([shell.respond(Terminated(commands[..i]), commands[i] + "\n")]) == shell.respond(Terminated(commands[..i]), commands[i] + "\n");
        assert [] + Terminated(commands[..i]) == Terminated(commands[..i]);
      }
      log.Append(LogEntry(routerIp, userIp, commands[i], output, "success"));
      assert entries[..i + 1] == entries[..i] + [entries[i]];
      TerminatedAppend(commands, i);
    }
    assert commands[..|commands|] == commands;
    assert entries[..|commands|] == entries;
  }
}
