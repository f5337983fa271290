/**
 * backend/implement_bgp.py: the command lists of `configure_bgp` (with the
 * route-reflector lines spliced in for an internal peering between equal
 * AS numbers) and of `configure_vpnv4`, and the sessions that send them,
 * abort at the first reply holding "% Invalid", and log one entry.
 */
module Bgp {
  import opened Wrappers
  import opened Text
  import opened Session

  /** The parameters of `configure_bgp`, also the `config` it logs. */
  datatype Peering = Peering(bgpType: string, localAsn: string, neighborIp: string, neighborAsn: string, prefix: string, mask: string)

  /** What a BGP log entry records as its `config`. */
  datatype Config =
    | PeeringConfig(peering: Peering)
    | Vpnv4Config(localAsn: string, neighborIp: string)

  /** A document of the BGP log collection. */
  datatype LogEntry = LogEntry(kind: string, action: string, router: string, ip: string, config: Config, status: string, error: Option<string>)

  /** The dictionary both functions return. */
  datatype Response = Response(success: bool, output: string, error: string)

  const Invalid := "% Invalid"
  const Markers: seq<string> := [Invalid]
  /** What `configure_bgp` writes after the last command, in one `send`. */
  const SaveData := "end\nwrite memory\n"

  /** The seven commands built before the route-reflector condition is looked at. */
  function BaseCommands(p: Peering): seq<string> {
    [ "configure terminal",
      "router bgp " + p.localAsn,
      "neighbor " + p.neighborIp + " remote-as " + p.neighborAsn,
      "address-family ipv4 unicast",
      "network " + p.prefix + " " + p.mask,
      "neighbor " + p.neighborIp + " activate",
      "exit-address-family" ]
  }

  function ReflectorCommands(neighborIp: string): seq<string> {
    [ "bgp log-neighbor-changes",
      "neighbor " + neighborIp + " update-source Loopback0",
      "neighbor " + neighborIp + " route-reflector-client" ]
  }

  /** The splice condition: "iBGP" occurs in the type and the AS numbers are equal as strings. */
  predicate Internal(p: Peering) {
    Contains(p.bgpType, "iBGP") && p.localAsn == p.neighborAsn
  }

  /** The list `configure_bgp` sends: the base list, with `commands[3:3]` given the reflector lines when `Internal`. */
  function BgpCommands(p: Peering): (cmds: seq<string>)
    ensures |cmds| == if Internal(p) then 10 else 7
  {
    var commands := BaseCommands(p);
    if Internal(p) then commands[..3] + ReflectorCommands(p.neighborIp) + commands[3..] else commands
  }

  /** Any other peering, external or between different AS numbers, is sent exactly as built. */
  lemma ExternalSequence(p: Peering)
    requires !Internal(p)
    ensures BgpCommands(p) ==
      [ "configure terminal", "router bgp " + p.localAsn,
        "neighbor " + p.neighborIp + " remote-as " + p.neighborAsn,
        "address-family ipv4 unicast", "network " + p.prefix + " " + p.mask,
        "neighbor " + p.neighborIp + " activate", "exit-address-family" ]
  {
  }

  /**
   * The reflector lines land after the remote-as line, not right after
   * "router bgp", and before the address family; taking them out again
   * gives the base list.
   */
  lemma InternalSequence(p: Peering)
    requires Internal(p)
    ensures var cmds := BgpCommands(p);
      && cmds[1] == "router bgp " + p.localAsn
      && cmds[2] == "neighbor " + p.neighborIp + " remote-as " + p.neighborAsn
      && cmds[3..6] == ReflectorCommands(p.neighborIp)
      && cmds[6] == "address-family ipv4 unicast"
      && cmds[..3] + cmds[6..] == BaseCommands(p)
  {
    var base := BaseCommands(p);
    var cmds := BgpCommands(p);
    assert cmds == base[..3] + ReflectorCommands(p.neighborIp) + base[3..];
    assert cmds[..3] == base[..3];
    assert cmds[6..] == base[3..];
  }

  /** The fixed list of `configure_vpnv4`. */
  function Vpnv4Commands(localAsn: string, neighborIp: string): (cmds: seq<string>)
    ensures |cmds| == 8 && cmds[6] == "end" && cmds[7] == "write memory"
  {
    [ "configure terminal",
      "router bgp " + localAsn,
      "address-family vpnv4",
      "neighbor " + neighborIp + " activate",
      "neighbor " + neighborIp + " send-community extended",
      "exit-address-family",
      "end",
      "write memory" ]
  }

  /** The returned dictionary of a session, and everything written to the shell. */
  datatype Outcome = Outcome(response: Response, written: seq<string>)

  /**
   * One session of either function: connect, read up to the first prompt,
   * then `Converse`.
   */
  function Run(link: Link, commands: seq<string>, save: Option<string>): (o: Outcome)
  {
    match link
    case Down(m) => Outcome(Response(false, "", m), [])
    case Up(banner, respond) =>
      match Opening(banner)
      case Err(m) => Outcome(Response(false, "", m), [])
      case Ok((_, rest)) => Converse(rest, respond, commands, save)
  }

  /**
   * What follows the first prompt, with `rest` still unread: the commands
   * are sent until a reply holds "% Invalid"; when none does, `save` (if
   * any) is written and its reply read.
   */
  function Converse(rest: seq<string>, respond: (seq<string>, string) -> string, commands: seq<string>, save: Option<string>): (o: Outcome)
  {
    var d := SendLoop(Concat(rest), respond, [], commands, Markers);
    var output := Concat(d.replies);
    match d.rejected
    case Some(k) => Outcome(Response(false, output, "Command failed: " + commands[k] + "\n" + d.replies[k]), d.written)
    case None =>
      match save
      case None => Outcome(Response(true, output, ""), d.written)
      case Some(data) =>
        var carry := if d.written == [] then Concat(rest) else "";
        Outcome(Response(true, output + carry + respond(d.written, data), ""), d.written + [data])
  }

  /** The log entry for a returned dictionary: "success", or "error" with the message. */
  function Entry(action: string, router: Router, config: Config, r: Response): (e: LogEntry)
    ensures e.status == "success" <==> r.success
    ensures e.error == if r.success then None else Some(r.error)
  {
    LogEntry("BGP", action, router.name, router.ip, config,
             if r.success then "success" else "error",
             if r.success then None else Some(r.error))
  }

  /** The replies the commands get on a shell whose first prompt was read. */
  function Answers(banner: seq<string>, respond: (seq<string>, string) -> string, commands: seq<string>): (r: seq<string>)
    requires Opening(banner).Ok?
    ensures |r| == |commands|
  {
    Replies(Concat(Opening(banner).value.1), respond, [], commands)
  }

  /**
   * A session succeeds exactly when the shell opened, showed a prompt, and
   * no reply held "% Invalid".
   */
  lemma RunSucceeds(link: Link, commands: seq<string>, save: Option<string>)
    ensures Run(link, commands, save).response.success <==>
      && link.Up? && Opening(link.banner).Ok?
      && FirstRejected(Answers(link.banner, link.respond, commands), Markers).None?
  {
  }

  /** A successful session wrote every command, then the save data. */
  lemma RunWritesAll(link: Link, commands: seq<string>, save: Option<string>)
    requires Run(link, commands, save).response.success
    ensures Run(link, commands, save).written == Terminated(commands) + (if save.Some? then [save.value] else [])
  {
    if link.Up? && Opening(link.banner).Ok? {
      ConverseWritesAll(Opening(link.banner).value.1, link.respond, commands, save);
    }
  }

  lemma ConverseWritesAll(rest: seq<string>, respond: (seq<string>, string) -> string, commands: seq<string>, save: Option<string>)
    requires Converse(rest, respond, commands, save).response.success
    ensures Converse(rest, respond, commands, save).written == Terminated(commands) + (if save.Some? then [save.value] else [])
  {
    ConverseWritten(rest, respond, commands, save);
    SendLoopCompletes(Concat(rest), respond, [], commands, Markers);
  }

  lemma ConverseWritten(rest: seq<string>, respond: (seq<string>, string) -> string, commands: seq<string>, save: Option<string>)
    requires Converse(rest, respond, commands, save).response.success
    ensures var d := SendLoop(Concat(rest), respond, [], commands, Markers);
      && d.rejected.None?
      && Converse(rest, respond, commands, save).written == d.written + (if save.Some? then [save.value] else [])
  {
  }

  /**
   * A rejected command ends the session: the commands up to it were written,
   * nothing after it, and never the save data; the output holds every reply
   * read, the rejected one last.
   */
  lemma RunAborts(link: Link, commands: seq<string>, save: Option<string>, k: nat)
    requires link.Up? && Opening(link.banner).Ok?
    requires k < |commands|
    requires var replies := Answers(link.banner, link.respond, commands);
      Rejects(replies[k], Markers) && forall j | 0 <= j < k :: !Rejects(replies[j], Markers)
    ensures var o := Run(link, commands, save);
      var replies := Answers(link.banner, link.respond, commands);
      && !o.response.success
      && o.written == Terminated(commands[..k + 1])
      && o.response.output == Concat(replies[..k + 1])
      && o.response.error == "Command failed: " + commands[k] + "\n" + replies[k]
  {
    var replies := Answers(link.banner, link.respond, commands);
    assert FirstRejected(replies, Markers) == Some(k);
  }

  /** A shell that never shows a prompt fails the session with the timeout, and nothing is written. */
  lemma NoPromptNothingSent(banner: seq<string>, respond: (seq<string>, string) -> string, commands: seq<string>, save: Option<string>)
    requires forall k | 0 <= k <= |banner| :: !EndsWithPrompt(Concat(banner[..k]))
    ensures Run(Up(banner, respond), commands, save) == Outcome(Response(false, "", TimeoutMessage), [])
  {
    assert forall k | 0 <= k <= |banner| :: "" + Concat(banner[..k]) == Concat(banner[..k]);
  }

  /** `configure_bgp`. */
  method ConfigureBgp(router: Router, link: Link, p: Peering, log: Log<LogEntry>)
    returns (response: Response, shell: Shell?)
    modifies log
    ensures response == Run(link, BgpCommands(p), Some(SaveData)).response
    ensures log.entries == old(log.entries) + [Entry("configure", router, PeeringConfig(p), response)]
    ensures link.Down? <==> shell == null
    ensures shell != null ==> fresh(shell) && !shell.open && shell.sent == Run(link, BgpCommands(p), Some(SaveData)).written
  {
    response, shell := Apply(link, BgpCommands(p), Some(SaveData));
    log.Append(Entry("configure", router, PeeringConfig(p), response));
  }

  /** `configure_vpnv4`: the same session, with "end" and "write memory" in the list and nothing written after it. */
  method ConfigureVpnv4(router: Router, link: Link, localAsn: string, neighborIp: string, log: Log<LogEntry>)
    returns (response: Response, shell: Shell?)
    modifies log
    ensures response == Run(link, Vpnv4Commands(localAsn, neighborIp), None).response
    ensures log.entries == old(log.entries) + [Entry("configure_vpnv4", router, Vpnv4Config(localAsn, neighborIp), response)]
    ensures link.Down? <==> shell == null
    ensures shell != null ==> fresh(shell) && !shell.open && shell.sent == Run(link, Vpnv4Commands(localAsn, neighborIp), None).written
  {
    response, shell := Apply(link, Vpnv4Commands(localAsn, neighborIp), None);
    log.Append(Entry("configure_vpnv4", router, Vpnv4Config(localAsn, neighborIp), response));
  }

  /** The `try` block both functions share, with the `finally` that closes the connection. */
  method Apply(link: Link, commands: seq<string>, save: Option<string>) returns (response: Response, shell: Shell?)
    ensures response == Run(link, commands, save).response
    ensures link.Down? <==> shell == null
    ensures shell != null ==> fresh(shell) && !shell.open && shell.sent == Run(link, commands, save).written
  {
    response := Response(false, "", "");
    if link.Down? {
      response := response.(error := link.message);
      return response, null;
    }
    shell := new Shell(link.banner, link.respond);
    var prompt := WaitForPrompt(shell);
    if prompt.Err? {
      response := response.(error := prompt.message);
      shell.Close();
      return;
    }
    response := Exchange(shell, commands, save);
    shell.Close();
  }

  /** The command loop and the save of `Apply`, on a shell whose prompt was read. */
  method Exchange(shell: Shell, commands: seq<string>, save: Option<string>) returns (response: Response)
    requires shell.sent == []
    modifies shell
    ensures var o := Converse(old(shell.incoming), shell.respond, commands, save);
      response == o.response && shell.sent == o.written
    ensures shell.open == old(shell.open)
  {
    ghost var rest := shell.incoming;
    var replies, rejected := SendUntilRejected(shell, commands, Markers);
    if rejected.Some? {
      var k := rejected.value;
      return Response(false, Concat(replies), "Command failed: " + commands[k] + "\n" + replies[k]);
    }
    response := Saved(shell, rest, commands, replies, save);
  }

  /** The end of a session no reply rejected: the save, if any, and its reply. */
  method Saved(shell: Shell, ghost rest: seq<string>, commands: seq<string>, replies: seq<string>, save: Option<string>)
    returns (response: Response)
    requires var d := SendLoop(Concat(rest), shell.respond, [], commands, Markers);
      && d.rejected.None? && replies == d.replies && shell.sent == d.written
      && shell.incoming == (if d.written == [] then rest else [])
    modifies shell
    ensures var o := Converse(rest, shell.respond, commands, save);
      response == o.response && shell.sent == o.written
    ensures shell.open == old(shell.open)
  {
    ghost var d := SendLoop(Concat(rest), shell.respond, [], commands, Markers);
    ghost var carry := if d.written == [] then Concat(rest) else "";
    ConverseClean(rest, shell.respond, commands, save, d, carry);
    response := Response(true, Concat(replies), "");
    if save.Some? {
      assert Concat(shell.incoming) == carry;
      var tail := SendAndRead(shell, save.value);
      response := response.(output := response.output + tail);
    }
  }

  /** `Converse` when no reply was rejected, in terms of what the send loop did. */
  lemma ConverseClean(rest: seq<string>, respond: (seq<string>, string) -> string, commands: seq<string>, save: Option<string>,
                      d: Dispatch, carry: string)
    requires d == SendLoop(Concat(rest), respond, [], commands, Markers) && d.rejected.None?
    requires carry == if d.written == [] then Concat(rest) else ""
    ensures Converse(rest, respond, commands, save) == if save.None? then Outcome(Response(true, Concat(d.replies), ""), d.written)
      else Outcome(Response(true, Concat(d.replies) + carry + respond(d.written, save.value), ""), d.written + [save.value])
  {
  }
}
