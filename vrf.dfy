/**
 * backend/vrf_config.py: the VRF name and route-distinguisher checks, the
 * create and remove command lists, `execute_ssh_commands` (wait for the
 * prompt, send until a reply is rejected, then "write memory"), the log
 * entry of each call, and the interface parser of `fetch_interfaces`.
 */
module Vrf {
  import opened Wrappers
  import opened Text
  import opened Session

  // ---------------------------------------------------------------------
  // Validation

  const MaxNameLength := 32
  const NameError := "Invalid VRF name (max 32 chars, alphanumeric)"
  const RdError := "Invalid RD format (ASN:NN or IP:NN)"

  /** The class `[a-zA-Z0-9_-]`. */
  predicate NameChar(c: char) {
    'a' <= c <= 'z' || 'A' <= c <= 'Z' || IsDigit(c) || c == '_' || c == '-'
  }

  /**
   * `re.match(r"^[a-zA-Z0-9_-]{1,32}$", name)`: the greedy run of name
   * characters, at most 32 of them, must reach the end of the text or the
   * newline that ends it (`$` also matches there).
   */
  predicate NameMatch(name: string) {
    var run := SpanEnd(name, 0, NameChar);
    var n := if run > MaxNameLength then MaxNameLength else run;
    1 <= n && (n == |name| || (n + 1 == |name| && name[n] == '\n'))
  }

  /** A name of one to 32 characters, each a letter, a digit, '_' or '-'. */
  predicate GoodName(s: string) {
    1 <= |s| <= MaxNameLength && forall k | 0 <= k < |s| :: NameChar(s[k])
  }

  /** The name check accepts exactly the good names, and a good name followed by one newline. */
  lemma NameMatchMeans(name: string)
    ensures NameMatch(name) <==> GoodName(name) || (name != [] && name[|name| - 1] == '\n' && GoodName(name[..|name| - 1]))
  {
    var run := SpanEnd(name, 0, NameChar);
    if GoodName(name) {
      assert run == |name|;
    } else if name != [] && name[|name| - 1] == '\n' && GoodName(name[..|name| - 1]) {
      var t := name[..|name| - 1];
      assert forall k | 0 <= k < |t| :: NameChar(name[k]);
      assert run == |t|;
    }
    if NameMatch(name) {
      var n := if run > MaxNameLength then MaxNameLength else run;
      assert forall k | 0 <= k < n :: NameChar(name[k]);
      if n + 1 == |name| && name[n] == '\n' {
        assert name[..|name| - 1] == name[..n];
      }
    }
  }

  predicate AllDigits(s: string) {
    forall k | 0 <= k < |s| :: IsDigit(s[k])
  }

  /** `re.match(r"^\d+:\d+$", rd)`: digits, a colon, digits, then the end or a final newline. */
  predicate RdMatch(rd: string) {
    var a := SpanEnd(rd, 0, IsDigit);
    && 0 < a < |rd| && rd[a] == ':'
    && var b := SpanEnd(rd, a + 1, IsDigit);
       b > a + 1 && (b == |rd| || (b + 1 == |rd| && rd[b] == '\n'))
  }

  /** Two non-empty digit strings joined by a colon. */
  predicate GoodRd(s: string) {
    exists j | 0 < j < |s| - 1 :: s[j] == ':' && AllDigits(s[..j]) && AllDigits(s[j + 1..])
  }

  /** The RD check accepts exactly `digits:digits`, and the same followed by one newline. */
  lemma RdMatchMeans(rd: string)
    ensures RdMatch(rd) <==> GoodRd(rd) || (rd != [] && rd[|rd| - 1] == '\n' && GoodRd(rd[..|rd| - 1]))
  {
    if RdMatch(rd) {
      var a := SpanEnd(rd, 0, IsDigit);
      var b := SpanEnd(rd, a + 1, IsDigit);
      var t := rd[..b];
      assert t[a] == ':' && t[..a] == rd[..a] && t[a + 1..] == rd[a + 1..b];
      assert GoodRd(t);
      if b + 1 == |rd| {
        assert rd[..|rd| - 1] == t;
      } else {
        assert t == rd;
      }
    }
    if GoodRd(rd) {
      RdFromShape(rd, rd);
    } else if rd != [] && rd[|rd| - 1] == '\n' && GoodRd(rd[..|rd| - 1]) {
      RdFromShape(rd, rd[..|rd| - 1]);
    }
  }

  /** The matcher finds the colon of any `digits:digits` prefix `t` of `rd`, and ends where `t` does. */
  lemma RdFromShape(rd: string, t: string)
    requires GoodRd(t) && |t| <= |rd| && t == rd[..|t|]
    requires |t| == |rd| || (|t| + 1 == |rd| && rd[|t|] == '\n')
    ensures RdMatch(rd)
  {
    var j :| 0 < j < |t| - 1 && t[j] == ':' && AllDigits(t[..j]) && AllDigits(t[j + 1..]);
    assert forall k | 0 <= k < j :: IsDigit(rd[k]) by {
      forall k | 0 <= k < j ensures IsDigit(rd[k]) { assert rd[k] == t[..j][k]; }
    }
    var a := SpanEnd(rd, 0, IsDigit);
    assert a == j;
    assert forall k | j + 1 <= k < |t| :: IsDigit(rd[k]) by {
      forall k | j + 1 <= k < |t| ensures IsDigit(rd[k]) { assert rd[k] == t[j + 1..][k - j - 1]; }
    }
    var b := SpanEnd(rd, a + 1, IsDigit);
    assert b == |t|;
  }

  // ---------------------------------------------------------------------
  // Command lists

  /** The placeholder the interface selector shows when none is chosen. */
  const NoInterface := "-- Optional Interface --"

  /** `interface and interface != "-- Optional Interface --"`. */
  predicate Attached(interface: Option<string>) {
    interface.Some? && interface.value != "" && interface.value != NoInterface
  }

  /** The list of `send_vrf_configuration`: the VRF, then the interface binding when one is chosen, then "end". */
  function CreateCommands(name: string, rd: string, rt: string, interface: Option<string>): (cmds: seq<string>)
    ensures |cmds| == if Attached(interface) then 10 else 7
    ensures cmds[..6] == ["configure terminal", "ip vrf " + name, "rd " + rd,
                          "route-target export " + rt, "route-target import " + rt, "exit"]
    ensures Attached(interface) ==> cmds[6..9] == ["interface " + interface.value, "ip vrf forwarding " + name, "exit"]
    ensures cmds[|cmds| - 1] == "end"
  {
    var base := ["configure terminal", "ip vrf " + name, "rd " + rd,
                 "route-target export " + rt, "route-target import " + rt, "exit"];
    var binding := if Attached(interface) then ["interface " + interface.value, "ip vrf forwarding " + name, "exit"] else [];
    base + binding + ["end"]
  }

  /** The list of `remove_vrf_configuration`. */
  function RemoveCommands(name: string): seq<string> {
    ["configure terminal", "no ip vrf " + name, "end", "write memory"]
  }

  // ---------------------------------------------------------------------
  // execute_ssh_commands

  const Markers: seq<string> := ["% Invalid", "% Error"]
  const Save := "write memory\n"

  /** What `execute_ssh_commands` returns or raises, and everything it writes to the shell. */
  datatype Outcome = Outcome(result: Result<string>, written: seq<string>)

  function Execute(link: Link, commands: seq<string>): (o: Outcome)
  {
    match link
    case Down(m) => Outcome(Err(m), [])
    case Up(banner, respond) =>
      match Opening(banner)
      case Err(m) => Outcome(Err(m), [])
      case Ok((text, rest)) => Converse(text, rest, respond, commands)
  }

  /**
   * What follows the first prompt, `text` having been read and `rest` not:
   * the commands are sent until a reply holds a marker; when none does,
   * "write memory" is written and not read, and the text read is returned.
   */
  function Converse(text: string, rest: seq<string>, respond: (seq<string>, string) -> string, commands: seq<string>): (o: Outcome)
  {
    var d := SendLoop(Concat(rest), respond, [], commands, Markers);
    match d.rejected
    case Some(k) => Outcome(Err("Command failed: " + commands[k] + "\n" + d.replies[k]), d.written)
    case None => Outcome(Ok(text + Concat(d.replies)), d.written + [Save])
  }

  /** The replies the commands get on a shell whose first prompt was read. */
  function Answers(banner: seq<string>, respond: (seq<string>, string) -> string, commands: seq<string>): (r: seq<string>)
    requires Opening(banner).Ok?
    ensures |r| == |commands|
  {
    Replies(Concat(Opening(banner).value.1), respond, [], commands)
  }

  /**
   * A call returns exactly when the shell opened, showed a prompt, and no
   * reply was rejected; it then wrote every command and "write memory", and
   * returns the text read from the very start, the banner included.
   */
  lemma ExecuteReturns(link: Link, commands: seq<string>)
    ensures Execute(link, commands).result.Ok? <==>
      link.Up? && Opening(link.banner).Ok? && FirstRejected(Answers(link.banner, link.respond, commands), Markers).None?
    ensures Execute(link, commands).result.Ok? ==>
      && Execute(link, commands).written == Terminated(commands) + [Save]
      && Execute(link, commands).result.value == Opening(link.banner).value.0 + Concat(Answers(link.banner, link.respond, commands))
  {
    if Execute(link, commands).result.Ok? {
      var d := SendLoop(Concat(Opening(link.banner).value.1), link.respond, [], commands, Markers);
      assert d.rejected.None? && |d.written| == |commands|;
      assert commands[..|commands|] == commands;
    }
  }

  /** The first rejected reply raises with the command and the reply; nothing after it is written, "write memory" neither. */
  lemma ExecuteAborts(link: Link, commands: seq<string>, k: nat)
    requires link.Up? && Opening(link.banner).Ok? && k < |commands|
    requires var replies := Answers(link.banner, link.respond, commands);
      Rejects(replies[k], Markers) && forall j | 0 <= j < k :: !Rejects(replies[j], Markers)
    ensures var o, replies := Execute(link, commands), Answers(link.banner, link.respond, commands);
      && o.result == Err("Command failed: " + commands[k] + "\n" + replies[k])
      && o.written == Terminated(commands[..k + 1])
  {
    var replies := Answers(link.banner, link.respond, commands);
    assert FirstRejected(replies, Markers) == Some(k);
  }

  /** A removal that returns has written "write memory" twice: its own last command, then the save. */
  lemma RemoveSavesTwice(link: Link, name: string)
    requires Execute(link, RemoveCommands(name)).result.Ok?
    ensures var w := Execute(link, RemoveCommands(name)).written;
      |w| == 5 && w[3] == "write memory\n" && w[4] == "write memory\n"
  {
    ExecuteReturns(link, RemoveCommands(name));
  }

  /** `execute_ssh_commands`: the `try` body, with the `finally` that closes the connection. */
  method ExecuteSshCommands(link: Link, commands: seq<string>) returns (result: Result<string>, shell: Shell?)
    ensures result == Execute(link, commands).result
    ensures link.Down? <==> shell == null
    ensures shell != null ==> fresh(shell) && !shell.open && shell.sent == Execute(link, commands).written
  {
    if link.Down? {
      return Err(link.message), null;
    }
    shell := new Shell(link.banner, link.respond);
    var prompt := WaitForPrompt(shell);
    if prompt.Err? {
      result := Err(prompt.message);
    } else {
      result := Exchange(shell, prompt.value, commands);
    }
    shell.Close();
  }

  /** The command loop and the save, on a shell whose prompt was read as `text`. */
  method Exchange(shell: Shell, text: string, commands: seq<string>) returns (result: Result<string>)
    requires shell.sent == []
    modifies shell
    ensures var o := Converse(text, old(shell.incoming), shell.respond, commands);
      result == o.result && shell.sent == o.written
    ensures shell.open == old(shell.open)
  {
    var replies, rejected := SendUntilRejected(shell, commands, Markers);
    if rejected.Some? {
      var k := rejected.value;
      return Err("Command failed: " + commands[k] + "\n" + replies[k]);
    }
    shell.Send(Save);
    result := Ok(text + Concat(replies));
  }

  // ---------------------------------------------------------------------
  // The configuration functions

  /** What a VRF log entry records as its `config`. */
  datatype Config =
    | CreateConfig(vrfName: string, rd: string, rt: string, interface: Option<string>)
    | RemoveConfig(vrfName: string)

  /** A document of the VRF log collection: an action's outcome, or an interface fetch. */
  datatype LogEntry =
    | ActionEntry(action: string, status: string, routerName: string, routerIp: string, config: Config, error: Option<string>)
    | FetchEntry(status: string, routerName: string, routerIp: string, interfaceCount: Option<nat>, error: Option<string>)

  /** The dictionary both configuration functions return. */
  datatype Response = Response(success: bool, output: string, error: string)

  /** `send_vrf_configuration` up to the log: the two checks, then the session. */
  function Create(link: Link, name: string, rd: string, rt: string, interface: Option<string>): (o: Outcome)
    ensures !NameMatch(name) ==> o == Outcome(Err(NameError), [])
    ensures NameMatch(name) && !RdMatch(rd) ==> o == Outcome(Err(RdError), [])
  {
    if !NameMatch(name) then Outcome(Err(NameError), [])
    else if !RdMatch(rd) then Outcome(Err(RdError), [])
    else Execute(link, CreateCommands(name, rd, rt, interface))
  }

  /** The returned dictionary: success exactly when the session returned, with its text; else the error. */
  function ResponseOf(r: Result<string>): (response: Response)
    ensures response.success <==> r.Ok?
    ensures response.error == "" <== r.Ok?
  {
    match r
    case Ok(output) => Response(true, output, "")
    case Err(m) => Response(false, "", m)
  }

  /** The log entry of a configuration call: "success", or "failed" with the error. */
  function Recorded(action: string, router: Router, config: Config, r: Result<string>): (e: LogEntry)
    ensures e.status == "success" <==> r.Ok?
    ensures e.error.Some? <==> r.Err?
  {
    ActionEntry(action, if r.Ok? then "success" else "failed", router.name, router.ip, config,
                if r.Err? then Some(r.message) else None)
  }

  /** `send_vrf_configuration`. */
  method SendVrfConfiguration(router: Router, link: Link, name: string, rd: string, rt: string,
                              interface: Option<string>, log: Log<LogEntry>)
    returns (response: Response, shell: Shell?)
    modifies log
    ensures var o := Create(link, name, rd, rt, interface);
      && response == ResponseOf(o.result)
      && log.entries == old(log.entries) + [Recorded("create", router, CreateConfig(name, rd, rt, interface), o.result)]
      && (shell != null ==> fresh(shell) && !shell.open && shell.sent == o.written)
    ensures !NameMatch(name) || !RdMatch(rd) ==> shell == null
  {
    response := Response(false, "", "");
    var config := CreateConfig(name, rd, rt, interface);
    var result: Result<string>;
    shell := null;
    if !NameMatch(name) {
      result := Err(NameError);
    } else if !RdMatch(rd) {
      result := Err(RdError);
    } else {
      var commands := ["configure terminal", "ip vrf " + name, "rd " + rd,
                       "route-target export " + rt, "route-target import " + rt, "exit"];
      if interface.Some? && interface.value != "" && interface.value != NoInterface {
        commands := commands + ["interface " + interface.value, "ip vrf forwarding " + name, "exit"];
      }
      commands := commands + ["end"];
      assert commands == CreateCommands(name, rd, rt, interface);
      result, shell := ExecuteSshCommands(link, commands);
    }
    if result.Ok? {
      response := response.(success := true, output := result.value);
      log.Append(ActionEntry("create", "success", router.name, router.ip, config, None));
    } else {
      response := response.(error := result.message);
      log.Append(ActionEntry("create", "failed", router.name, router.ip, config, Some(result.message)));
    }
  }

  /** `remove_vrf_configuration`. */
  method RemoveVrfConfiguration(router: Router, link: Link, name: string, log: Log<LogEntry>)
    returns (response: Response, shell: Shell?)
    modifies log
    ensures var o := Execute(link, RemoveCommands(name));
      && response == ResponseOf(o.result)
      && log.entries == old(log.entries) + [Recorded("delete", router, RemoveConfig(name), o.result)]
      && (link.Down? <==> shell == null)
      && (shell != null ==> fresh(shell) && !shell.open && shell.sent == o.written)
  {
    response := Response(false, "", "");
    var result;
    result, shell := ExecuteSshCommands(link, RemoveCommands(name));
    if result.Ok? {
      response := response.(success := true, output := result.value);
      log.Append(ActionEntry("delete", "success", router.name, router.ip, RemoveConfig(name), None));
    } else {
      response := response.(error := result.message);
      log.Append(ActionEntry("delete", "failed", router.name, router.ip, RemoveConfig(name), Some(result.message)));
    }
  }

  /**
   * `fetch_interfaces`, with the text of "show ip interface brief" given:
   * the names, logged with their count, or the failure logged and raised as
   * "Interface fetch failed".
   */
  method FetchInterfaces(router: Router, fetched: Result<string>, log: Log<LogEntry>) returns (r: Result<seq<string>>)
    modifies log
    ensures fetched.Ok? ==> r == Ok(InterfaceNames(fetched.value))
    ensures fetched.Err? ==> r == Err("Interface fetch failed: " + fetched.message)
    ensures log.entries == old(log.entries) +
      [if fetched.Ok? then FetchEntry("success", router.name, router.ip, Some(|InterfaceNames(fetched.value)|), None)
       else FetchEntry("error", router.name, router.ip, None, Some("Interface fetch failed: " + fetched.message))]
  {
    match fetched
    case Ok(output) =>
      var interfaces := InterfaceNames(output);
      log.Append(FetchEntry("success", router.name, router.ip, Some(|interfaces|), None));
      r := Ok(interfaces);
    case Err(m) =>
      var message := "Interface fetch failed: " + m;
      log.Append(FetchEntry("error", router.name, router.ip, None, Some(message)));
      r := Err(message);
  }
}
