/**
 * backend/ospf.py: the three command builders, `execute_ssh_commands`
 * (which writes the enable secret and every command before reading
 * anything, then judges the whole output), and the way the three
 * configuration functions log and return its result.
 */
module Ospf {
  import opened Wrappers
  import opened Text
  import opened Session

  /** One entry of the `networks` list of `apply_ospf_config`. */
  datatype Network = Network(network: string, mask: string, area: string)

  function NetworkLine(n: Network): string {
    "network " + n.network + " " + n.mask + " area " + n.area
  }

  /** The list of `apply_ospf_config`: one network statement per entry, in order, inside the process. */
  function ApplyCommands(networks: seq<Network>, ospfId: string): (cmds: seq<string>)
    ensures |cmds| == |networks| + 4
    ensures cmds[..2] == ["configure terminal", "router ospf " + ospfId]
    ensures forall i | 0 <= i < |networks| :: cmds[i + 2] == NetworkLine(networks[i])
    ensures cmds[|networks| + 2..] == ["end", "write memory"]
  {
    ["configure terminal", "router ospf " + ospfId]
      + seq(|networks|, i requires 0 <= i < |networks| => NetworkLine(networks[i]))
      + ["end", "write memory"]
  }

  /** The list of `delete_ospf_config`. */
  function DeleteProcessCommands(ospfId: string): seq<string> {
    ["configure terminal", "no router ospf " + ospfId, "end", "write memory"]
  }

  /** The list of `delete_ospf_network`. */
  function DeleteNetworkCommands(n: Network, ospfId: string): seq<string> {
    ["configure terminal", "router ospf " + ospfId, "no " + NetworkLine(n), "end", "write memory"]
  }

  /** The example of the network form: one network in area 0 of process 1 gives five commands. */
  lemma ApplyExample()
    ensures ApplyCommands([Network("10.0.0.0", "0.0.0.255", "0")], "1") ==
      ["configure terminal", "router ospf 1", "network 10.0.0.0 0.0.0.255 area 0", "end", "write memory"]
  {
    var cmds := ApplyCommands([Network("10.0.0.0", "0.0.0.255", "0")], "1");
    assert "router ospf " + "1" == "router ospf 1";
    assert cmds[..2] == ["configure terminal", "router ospf 1"];
    assert cmds[2] == "network 10.0.0.0 0.0.0.255 area 0";
    assert cmds == cmds[..2] + [cmds[2]] + cmds[3..];
  }

  /**
   * Deleting one network sends what applying it alone sends, with the
   * network statement negated; deleting the process negates the process line.
   */
  lemma DeleteMirrorsApply(n: Network, ospfId: string)
    ensures var applied := ApplyCommands([n], ospfId);
      && DeleteNetworkCommands(n, ospfId) == applied[..2] + ["no " + applied[2]] + applied[3..]
      && DeleteProcessCommands(ospfId) == [applied[0], "no " + applied[1]] + applied[3..]
  {
    var applied := ApplyCommands([n], ospfId);
    assert applied[..2] == ["configure terminal", "router ospf " + ospfId];
    assert applied[3..] == ["end", "write memory"];
    assert "no " + applied[1] == "no router ospf " + ospfId;
  }

  // ---------------------------------------------------------------------
  // execute_ssh_commands

  /** What the SSH log shows in place of the enable secret. */
  const Masked := "********"

  /** What is written before the commands: "enable" and the secret, when the router record has one. */
  function Preamble(router: Router): seq<string> {
    match router.enablePassword
    case Some(secret) => ["enable\n", secret + "\n"]
    case None => []
  }

  /** The same two steps as the SSH log lists them. */
  function LoggedPreamble(router: Router): seq<string> {
    if router.enablePassword.Some? then ["enable", Masked] else []
  }

  /** A document of the SSH log collection. */
  datatype SshEntry = SshEntry(ip: string, username: string, commands: seq<string>, output: string, status: string, error: Option<string>)

  /** What `execute_ssh_commands` returns: `True`, or a text (the output, or the error). */
  datatype Returned = Success | Text(text: string)

  /** The success rule: no "% Invalid", and no "error" in any letter case. */
  predicate Accepted(output: string) {
    !Contains(output, "% Invalid") && !Contains(Lower(output), "error")
  }

  /** The result of one call, the SSH log entry it writes, and everything it writes to the shell. */
  datatype Execution = Execution(result: Returned, entry: SshEntry, written: seq<string>)

  function Execute(router: Router, link: Link, commands: seq<string>): (x: Execution)
    ensures x.result.Success? <==> x.entry.status == "success"
    ensures x.entry.status == "error" <==> link.Down?
    ensures x.result.Text? ==> x.result.text == x.entry.output
    ensures x.entry.ip == router.ip && x.entry.username == router.username
  {
    match link
    case Down(m) =>
      var text := "SSH Error: " + m;
      Execution(Text(text), SshEntry(router.ip, router.username, [], text, "error", Some(m)), [])
    case Up(banner, respond) =>
      var written := Preamble(router) + Terminated(commands);
      var output := Concat(banner + Responses(respond, [], written));
      var ok := Accepted(output);
      Execution(if ok then Success else Text(Strip(output)),
                SshEntry(router.ip, router.username, LoggedPreamble(router) + commands, Strip(output),
                         if ok then "success" else "failure", None),
                written)
  }

  /**
   * Nothing is read before everything is written: what a call writes does
   * not depend on what the router answers, so a rejected command never
   * stops the later ones.
   */
  lemma WritesIgnoreReplies(router: Router, commands: seq<string>, b1: seq<string>, f1: (seq<string>, string) -> string,
                            b2: seq<string>, f2: (seq<string>, string) -> string)
    ensures Execute(router, Up(b1, f1), commands).written == Execute(router, Up(b2, f2), commands).written
    ensures |Execute(router, Up(b1, f1), commands).written| == |Preamble(router)| + |commands|
  {
  }

  /**
   * The SSH log lists "enable" and the mask, then the commands; the secret
   * itself is listed only if it is also one of the commands.
   */
  lemma SecretNeverLogged(router: Router, link: Link, commands: seq<string>)
    requires link.Up? && router.enablePassword.Some?
    requires router.enablePassword.value !in commands
    requires router.enablePassword.value != "enable" && router.enablePassword.value != Masked
    ensures Execute(router, link, commands).entry.commands == ["enable", Masked] + commands
    ensures router.enablePassword.value !in Execute(router, link, commands).entry.commands
  {
  }

  /** Lower-casing keeps every occurrence, lower-cased. */
  lemma LowerContains(s: string, t: string)
    requires Contains(s, t)
    ensures Contains(Lower(s), Lower(t))
  {
    var i :| 0 <= i <= |s| && StartsWith(s[i..], t);
    assert Lower(s)[i..i + |t|] == Lower(t);
    ContainsAt(Lower(s), Lower(t), i);
  }

  /** "Error", "ERROR" or any other spelling of the word in the output fails the call. */
  lemma AnyCaseErrorFails(output: string, word: string)
    requires Lower(word) == "error" && Contains(output, word)
    ensures !Accepted(output)
  {
    LowerContains(output, word);
  }

  /** `execute_ssh_commands`, with the `finally` that logs and closes. */
  method ExecuteSshCommands(router: Router, link: Link, commands: seq<string>, sshLog: Log<SshEntry>)
    returns (result: Returned, shell: Shell?)
    modifies sshLog
    ensures var x := Execute(router, link, commands);
      && result == x.result
      && sshLog.entries == old(sshLog.entries) + [x.entry]
      && (link.Down? <==> shell == null)
      && (shell != null ==> fresh(shell) && !shell.open && shell.sent == x.written)
  {
    var logged: seq<string> := [];
    var fullOutput := "";
    var status := "failure";
    var success := false;
    var error: Option<string> := None;
    if link.Down? {
      error := Some(link.message);
      fullOutput := "SSH Error: " + link.message;
      status := "error";
      shell := null;
    } else {
      shell := new Shell(link.banner, link.respond);
      if router.enablePassword.Some? {
        logged := logged + ["enable", Masked];
      }
      logged := logged + commands;
      WriteAll(shell, router, commands);
      var output := Drain(shell);
      fullOutput := Strip(output);
      success := !Contains(output, "% Invalid") && !Contains(Lower(output), "error");
      status := if success then "success" else "failure";
      assert logged == LoggedPreamble(router) + commands;
      assert success == Accepted(Concat(link.banner + Responses(link.respond, [], shell.sent)));
    }
    sshLog.Append(SshEntry(router.ip, router.username, logged, fullOutput, status, error));
    if shell != null {
      shell.Close();
    }
    result := if success then Success else Text(fullOutput);
  }

  /** The writes of `execute_ssh_commands`: "enable" and the secret when there is one, then every command. */
  method WriteAll(shell: Shell, router: Router, commands: seq<string>)
    requires shell.sent == []
    modifies shell
    ensures shell.sent == Preamble(router) + Terminated(commands)
    ensures shell.incoming == old(shell.incoming) + Responses(shell.respond, [], shell.sent)
    ensures shell.open == old(shell.open)
  {
    WritePreamble(shell, router);
    WriteCommands(shell, commands, old(shell.incoming));
  }

  /** "enable" and the secret, when the router has one. */
  method WritePreamble(shell: Shell, router: Router)
    requires shell.sent == []
    modifies shell
    ensures shell.sent == Preamble(router)
    ensures shell.incoming == old(shell.incoming) + Responses(shell.respond, [], shell.sent)
    ensures shell.open == old(shell.open)
  {
    ghost var banner := shell.incoming;
    if router.enablePassword.Some? {
      var secret := router.enablePassword.value;
      shell.Send("enable\n");
      ghost var mid := shell.incoming;
      assert shell.sent == ["enable\n"];
      shell.Send(secret + "\n");
      assert shell.incoming == banner + Responses(shell.respond, [], shell.sent) by {
        var sent := shell.sent;
        assert mid == banner + [shell.respond([], "enable\n")];
        assert shell.incoming == banner + [shell.respond([], "enable\n"), shell.respond(["enable\n"], secret + "\n")];
        assert sent == ["enable\n", secret + "\n"];
        assert [] + sent[..0] == [] && [] + sent[..1] == ["enable\n"];
        assert Responses(shell.respond, [], sent) == [shell.respond([], "enable\n"), shell.respond(["enable\n"], secret + "\n")];
      }
    } else {
      assert Responses(shell.respond, [], []) == [];
    }
  }

  /** Every command with a newline, after what was already written; the replies pile up unread after `banner`. */
  method WriteCommands(shell: Shell, commands: seq<string>, ghost banner: seq<string>)
    requires shell.incoming == banner + Responses(shell.respond, [], shell.sent)
    modifies shell
    ensures shell.sent == old(shell.sent) + Terminated(commands)
    ensures shell.incoming == banner + Responses(shell.respond, [], shell.sent)
    ensures shell.open == old(shell.open)
  {
    ghost var pre := shell.sent;
    for i := 0 to |commands|
      invariant shell.sent == pre + Terminated(commands[..i])
      invariant shell.incoming == banner + Responses(shell.respond, [], shell.sent)
      invariant shell.open == old(shell.open)
    {
      ResponsesAppend(shell.respond, [], shell.sent, commands[i] + "\n");
      assert [] + shell.sent == shell.sent;
      shell.Send(commands[i] + "\n");
      TerminatedAppend(commands, i);
    }
    assert commands[..|commands|] == commands;
  }

  // ---------------------------------------------------------------------
  // The configuration functions

  /** What a configuration log entry records besides the process number. */
  datatype Target =
    | Networks(networks: seq<Network>)
    | WholeProcess
    | OneNetwork(network: Network)

  /** A document of the configuration log collection. */
  datatype ConfigEntry = ConfigEntry(action: string, router: string, ospfId: string, target: Target, status: string, error: Option<string>)

  /**
   * The entry a configuration function logs: "error" with the message when
   * the router could not be looked up, otherwise "success" exactly when the
   * call returned `True`, with the returned text as the error when it did not.
   */
  function Recorded(action: string, routerName: string, ospfId: string, target: Target,
                    lookup: Result<Router>, result: Returned): (e: ConfigEntry)
    ensures e.status == "error" <==> lookup.Err?
    ensures e.status == "success" <==> lookup.Ok? && result.Success?
    ensures lookup.Ok? ==> e.error == if result.Text? then Some(result.text) else None
  {
    match lookup
    case Err(m) => ConfigEntry(action, routerName, ospfId, target, "error", Some(m))
    case Ok(_) =>
      ConfigEntry(action, routerName, ospfId, target,
                  if result.Success? then "success" else "failure",
                  if result.Text? then Some(result.text) else None)
  }

  /** What a configuration function's call of `execute_ssh_commands` returns, or the lookup error. */
  function Outcome(lookup: Result<Router>, link: Link, commands: seq<string>): (r: Returned)
    ensures lookup.Err? ==> r == Text(lookup.message)
  {
    match lookup
    case Err(m) => Text(m)
    case Ok(router) => Execute(router, link, commands).result
  }

  /**
   * The body the three configuration functions share: look the router up
   * (given here as `lookup`), run the commands, log the outcome, return it.
   */
  method Configure(action: string, routerName: string, ospfId: string, target: Target, lookup: Result<Router>,
                   link: Link, commands: seq<string>, sshLog: Log<SshEntry>, configLog: Log<ConfigEntry>)
    returns (result: Returned)
    modifies sshLog, configLog
    ensures result == Outcome(lookup, link, commands)
    ensures configLog.entries == old(configLog.entries) + [Recorded(action, routerName, ospfId, target, lookup, result)]
    ensures sshLog.entries == old(sshLog.entries) + if lookup.Ok? then [Execute(lookup.value, link, commands).entry] else []
  {
    match lookup
    case Err(m) =>
      configLog.Append(ConfigEntry(action, routerName, ospfId, target, "error", Some(m)));
      result := Text(m);
    case Ok(router) =>
      var shell;
      result, shell := ExecuteSshCommands(router, link, commands, sshLog);
      configLog.Append(ConfigEntry(action, routerName, ospfId, target,
                                   if result.Success? then "success" else "failure",
                                   if result.Text? then Some(result.text) else None));
  }

  /** `apply_ospf_config`. */
  method ApplyOspfConfig(routerName: string, lookup: Result<Router>, link: Link, networks: seq<Network>, ospfId: string,
                         sshLog: Log<SshEntry>, configLog: Log<ConfigEntry>)
    returns (result: Returned)
    modifies sshLog, configLog
    ensures result == Outcome(lookup, link, ApplyCommands(networks, ospfId))
    ensures configLog.entries == old(configLog.entries) + [Recorded("apply", routerName, ospfId, Networks(networks), lookup, result)]
    ensures sshLog.entries == old(sshLog.entries) + if lookup.Ok? then [Execute(lookup.value, link, ApplyCommands(networks, ospfId)).entry] else []
  {
    result := Configure("apply", routerName, ospfId, Networks(networks), lookup, link, ApplyCommands(networks, ospfId), sshLog, configLog);
  }

  /** `delete_ospf_config`. */
  method DeleteOspfConfig(routerName: string, lookup: Result<Router>, link: Link, ospfId: string,
                          sshLog: Log<SshEntry>, configLog: Log<ConfigEntry>)
    returns (result: Returned)
    modifies sshLog, configLog
    ensures result == Outcome(lookup, link, DeleteProcessCommands(ospfId))
    ensures configLog.entries == old(configLog.entries) + [Recorded("delete_all", routerName, ospfId, WholeProcess, lookup, result)]
    ensures sshLog.entries == old(sshLog.entries) + if lookup.Ok? then [Execute(lookup.value, link, DeleteProcessCommands(ospfId)).entry] else []
  {
    result := Configure("delete_all", routerName, ospfId, WholeProcess, lookup, link, DeleteProcessCommands(ospfId), sshLog, configLog);
  }

  /** `delete_ospf_network`: like the others, except that any text the call returns is replaced by "Network not found". */
  method DeleteOspfNetwork(routerName: string, lookup: Result<Router>, link: Link, n: Network, ospfId: string,
                           sshLog: Log<SshEntry>, configLog: Log<ConfigEntry>)
    returns (result: Returned)
    modifies sshLog, configLog
    ensures var r := Outcome(lookup, link, DeleteNetworkCommands(n, ospfId));
      && configLog.entries == old(configLog.entries) + [Recorded("delete_network", routerName, ospfId, OneNetwork(n), lookup, r)]
      && result == if lookup.Ok? && r.Text? then Text("Network not found") else r
    ensures sshLog.entries == old(sshLog.entries) + if lookup.Ok? then [Execute(lookup.value, link, DeleteNetworkCommands(n, ospfId)).entry] else []
  {
    result := Configure("delete_network", routerName, ospfId, OneNetwork(n), lookup, link, DeleteNetworkCommands(n, ospfId), sshLog, configLog);
    if lookup.Ok? && result.Text? {
      result := Text("Network not found");
    }
  }
}
