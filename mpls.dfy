/**
 * backend/implement_mpls.py: the command lists of `configure_mpls` and
 * `delete_mpls_config`, their shared send loop that breaks at the first
 * reply holding "% Invalid" (a `for … else`), the log entry each call
 * writes, and the interface parser of `show_interfaces`.
 */
module Mpls {
  import opened Wrappers
  import opened Text
  import opened Session

  /** A document of the MPLS log collection. */
  datatype LogEntry = LogEntry(kind: string, action: string, router: string, interfaces: seq<string>, status: string, error: Option<string>)

  /** The dictionary both functions return. */
  datatype Response = Response(success: bool, output: string, error: string)

  const Invalid := "% Invalid"
  const Markers: seq<string> := [Invalid]

  /** One interface's element of a command list: three lines sent in one write. */
  function Block(intf: string, line: string): string {
    "interface " + intf + "\n" + line + "\nexit"
  }

  function Blocks(interfaces: seq<string>, line: string): (r: seq<string>)
    ensures |r| == |interfaces| && forall i | 0 <= i < |interfaces| :: r[i] == Block(interfaces[i], line)
  {
    seq(|interfaces|, i requires 0 <= i < |interfaces| => Block(interfaces[i], line))
  }

  /** The list of `configure_mpls`: MPLS on globally, then on each interface in order, then save. */
  function ConfigureCommands(interfaces: seq<string>): (cmds: seq<string>)
    ensures |cmds| == |interfaces| + 4
    ensures cmds[0] == "configure terminal" && cmds[1] == "mpls ip"
    ensures forall i | 0 <= i < |interfaces| :: cmds[i + 2] == Block(interfaces[i], "mpls ip")
    ensures cmds[|interfaces| + 2] == "end" && cmds[|interfaces| + 3] == "write memory"
  {
    ["configure terminal", "mpls ip"] + Blocks(interfaces, "mpls ip") + ["end", "write memory"]
  }

  /** The list of `delete_mpls_config`: MPLS off on each interface in order, then save. */
  function DeleteCommands(interfaces: seq<string>): (cmds: seq<string>)
    ensures |cmds| == |interfaces| + 3
    ensures cmds[0] == "configure terminal"
    ensures forall i | 0 <= i < |interfaces| :: cmds[i + 1] == Block(interfaces[i], "no mpls ip")
    ensures cmds[|interfaces| + 1] == "end" && cmds[|interfaces| + 2] == "write memory"
  {
    ["configure terminal"] + Blocks(interfaces, "no mpls ip") + ["end", "write memory"]
  }

  /** Deleting turns MPLS off per interface only: the global "no mpls ip" is never sent. */
  lemma DeleteKeepsGlobalMpls(interfaces: seq<string>)
    ensures "no mpls ip" !in DeleteCommands(interfaces)
  {
    var cmds := DeleteCommands(interfaces);
    forall i | 0 <= i < |cmds|
      ensures cmds[i] != "no mpls ip"
    {
      if 1 <= i <= |interfaces| {
        assert cmds[i][0] == 'i';
      }
    }
  }

  /** The returned dictionary, the log status, and everything written to the shell. */
  datatype Outcome = Outcome(response: Response, status: string, written: seq<string>)

  /**
   * One call of either function. The shell is not waited on: the first
   * reply read also holds whatever the router showed on opening.
   */
  function Run(link: Link, commands: seq<string>): (o: Outcome)
    ensures o.response.output == ""
    ensures o.status == if o.response.success then "success" else if link.Up? then "failure" else "error"
  {
    match link
    case Down(m) => Outcome(Response(false, "", "Connection error: " + m), "error", [])
    case Up(banner, respond) =>
      var d := SendLoop(Concat(banner), respond, [], commands, Markers);
      match d.rejected
      case Some(k) => Outcome(Response(false, "", "Command failed: " + commands[k]), "failure", d.written)
      case None => Outcome(Response(true, "", ""), "success", d.written)
  }

  /** The log entry of a call: its status, and the error unless it succeeded. */
  function Entry(action: string, router: Router, interfaces: seq<string>, o: Outcome): (e: LogEntry)
    ensures e.error.None? <==> o.response.success
  {
    LogEntry("MPLS", action, router.name, interfaces, o.status,
             if o.response.success then None else Some(o.response.error))
  }

  /** A call succeeds exactly when the shell opened and no reply held "% Invalid" (the `else` of the loop ran). */
  lemma RunSucceeds(link: Link, commands: seq<string>)
    ensures Run(link, commands).response.success <==>
      link.Up? && FirstRejected(Replies(Concat(link.banner), link.respond, [], commands), Markers).None?
  {
  }

  /** A successful call wrote every command, each with its newline, and nothing else. */
  lemma RunWritesAll(link: Link, commands: seq<string>)
    requires Run(link, commands).response.success
    ensures Run(link, commands).written == Terminated(commands)
  {
    var d := SendLoop(Concat(link.banner), link.respond, [], commands, Markers);
    assert d.rejected.None? && |d.written| == |commands|;
    assert commands[..|commands|] == commands;
  }

  /** The first rejected command breaks the loop: it is named in the error, and nothing after it is written. */
  lemma RunAborts(link: Link, commands: seq<string>, k: nat)
    requires link.Up? && k < |commands|
    requires var replies := Replies(Concat(link.banner), link.respond, [], commands);
      Rejects(replies[k], Markers) && forall j | 0 <= j < k :: !Rejects(replies[j], Markers)
    ensures var o := Run(link, commands);
      && o.response == Response(false, "", "Command failed: " + commands[k])
      && o.status == "failure"
      && o.written == Terminated(commands[..k + 1])
  {
    var replies := Replies(Concat(link.banner), link.respond, [], commands);
    assert FirstRejected(replies, Markers) == Some(k);
  }

  /** `configure_mpls`. */
  method ConfigureMpls(router: Router, interfaces: seq<string>, link: Link, log: Log<LogEntry>)
    returns (response: Response, shell: Shell?)
    modifies log
    ensures var o := Run(link, ConfigureCommands(interfaces));
      && response == o.response
      && log.entries == old(log.entries) + [Entry("configure", router, interfaces, o)]
      && (link.Down? <==> shell == null)
      && (shell != null ==> fresh(shell) && !shell.open && shell.sent == o.written)
  {
    response, shell := Apply(router, "configure", interfaces, link, ConfigureCommands(interfaces), log);
  }

  /** `delete_mpls_config`. */
  method DeleteMpls(router: Router, interfaces: seq<string>, link: Link, log: Log<LogEntry>)
    returns (response: Response, shell: Shell?)
    modifies log
    ensures var o := Run(link, DeleteCommands(interfaces));
      && response == o.response
      && log.entries == old(log.entries) + [Entry("delete", router, interfaces, o)]
      && (link.Down? <==> shell == null)
      && (shell != null ==> fresh(shell) && !shell.open && shell.sent == o.written)
  {
    response, shell := Apply(router, "delete", interfaces, link, DeleteCommands(interfaces), log);
  }

  /** The body both functions share: connect, the `for … else` loop, the log entry, and the `finally` close. */
  method Apply(router: Router, action: string, interfaces: seq<string>, link: Link, commands: seq<string>, log: Log<LogEntry>)
    returns (response: Response, shell: Shell?)
    modifies log
    ensures var o := Run(link, commands);
      && response == o.response
      && log.entries == old(log.entries) + [Entry(action, router, interfaces, o)]
      && (link.Down? <==> shell == null)
      && (shell != null ==> fresh(shell) && !shell.open && shell.sent == o.written)
  {
    response := Response(false, "", "");
    if link.Down? {
      var message := "Connection error: " + link.message;
      response := response.(error := message);
      log.Append(LogEntry("MPLS", action, router.name, interfaces, "error", Some(message)));
      return response, null;
    }
    shell := new Shell(link.banner, link.respond);
    var replies, rejected := SendUntilRejected(shell, commands, Markers);
    if rejected.Some? {
      response := response.(error := "Command failed: " + commands[rejected.value]);
    } else {
      response := response.(success := true);
    }
    log.Append(LogEntry("MPLS", action, router.name, interfaces,
                        if response.success then "success" else "failure",
                        if !response.success then Some(response.error) else None));
    shell.Close();
  }

  /**
   * `show_interfaces`, with the text of "show ip interface brief" given:
   * the first word of every kept line, or the failure wrapped as "SSH Error".
   */
  function ShowInterfaces(fetched: Result<string>): (r: Result<seq<string>>)
    ensures r.Err? <==> fetched.Err?
    ensures fetched.Err? ==> r.message == "SSH Error: " + fetched.message
    ensures fetched.Ok? ==> |r.value| <= |Lines(fetched.value)|
  {
    match fetched
    case Err(m) => Err("SSH Error: " + m)
    case Ok(output) =>
      FirstWordsLength(Lines(output));
      Ok(InterfaceNames(output))
  }

  /** A name is listed exactly when it is the first word of a non-blank line that does not start with "Interface". */
  lemma ShowInterfacesNames(output: string, w: string)
    ensures w in ShowInterfaces(Ok(output)).value <==>
      exists line | line in Lines(output) :: InterfaceRow(line) && FirstToken(line) == w
  {
    FirstWordsMembers(Lines(output), w);
  }
}
