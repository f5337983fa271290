/**
 * The SSH monitor of backend/Router_stats.py: a class holding the connection
 * state, the prompt-waiting and output-reading loops, the statistics
 * request, and the function the web layer calls, which always disconnects.
 *
 * The network is a parameter. What `ssh.connect` does is given as a
 * `LinkOutcome`; an interactive channel is a script of polls, one per pass
 * of a reading loop, each either finding a chunk of decoded text ready or not.
 * A deadline of `t` seconds, with the loop sleeping 0.1 s per pass, is a
 * budget of `10 * t` polls.
 */
module RouterStats {
  import opened Wrappers
  import opened Text
  import opened RouterStatsParse

  /** `_wait_for_prompt(timeout=10)`. */
  const PromptPolls: nat := 100
  /** `_exec_command("terminal length 0\n")`, default timeout 5. */
  const TerminalLengthPolls: nat := 50
  /** The three reads of `get_stats`: timeouts 7, 7 and 5. */
  const CpuPolls: nat := 70
  const MemoryPolls: nat := 70
  const UptimePolls: nat := 50
  const CpuCommand := "show processes cpu\n"
  const MemoryCommand := "show memory statistics\n"
  const UptimeCommand := "show version | include uptime\n"

  /** The error of `_wait_for_prompt`. */
  const PromptMissing := "Prompt not detected - check credentials"
  const TerminalLengthCommand := "terminal length 0\n"

  /** What `ssh.connect` and `invoke_shell` come to. */
  datatype LinkOutcome =
    | Reachable(script: seq<Option<string>>)  // the shell opens; its polls
    | DnsFailure                              // socket.gaierror
    | AuthFailure                             // paramiko.AuthenticationException
    | Failure(message: string)                // any other exception, with its text

  /** Both loops stop on a router prompt character. */
  predicate HasPrompt(s: string) { '#' in s || '>' in s }

  /** The polls still to come after `n` more. */
  function After(q: seq<Option<string>>, n: nat): (r: seq<Option<string>>)
    ensures |r| <= |q|
  {
    if n <= |q| then q[n..] else []
  }

  lemma AfterAfter(q: seq<Option<string>>, a: nat, b: nat)
    ensures After(After(q, a), b) == After(q, a + b)
  {
  }

  /** The outcome of one reading loop: the chunks received, the polls spent, and whether a prompt ended it. */
  datatype Reading = Reading(chunks: seq<string>, polls: nat, prompt: bool)

  /**
   * One reading loop over the script `q` with `budget` polls: every chunk
   * found is kept, and the loop ends after the first chunk holding a prompt
   * character or when the budget is spent.
   */
  function Read(q: seq<Option<string>>, budget: nat): (r: Reading)
    ensures |r.chunks| <= r.polls <= budget
    ensures !r.prompt ==> r.polls == budget
    decreases budget
  {
    if budget == 0 then Reading([], 0, false)
    else
      var rest := Read(After(q, 1), budget - 1);
      match (if q == [] then None else q[0])
      case None => Reading(rest.chunks, rest.polls + 1, rest.prompt)
      case Some(d) =>
        if HasPrompt(d) then Reading([d], 1, true)
        else Reading([d] + rest.chunks, rest.polls + 1, rest.prompt)
  }

  /** A reading loop ends on a prompt exactly when its last chunk holds one, and no earlier chunk does. */
  lemma {:induction false} ReadStopsAtPrompt(q: seq<Option<string>>, budget: nat)
    ensures var r := Read(q, budget);
      && (r.prompt <==> EndsOnPrompt(r.chunks))
      && CleanBeforeLast(r.chunks)
    decreases budget
  {
    if budget > 0 {
      ReadStopsAtPrompt(After(q, 1), budget - 1);
      if q != [] && q[0].Some? && !HasPrompt(q[0].value) {
        PrependChunk(q[0].value, Read(After(q, 1), budget - 1).chunks);
      }
    }
  }

  predicate EndsOnPrompt(chunks: seq<string>) {
    chunks != [] && HasPrompt(chunks[|chunks| - 1])
  }

  /** No chunk but the last holds a prompt character. */
  predicate CleanBeforeLast(chunks: seq<string>) {
    forall k | 0 <= k < |chunks| - 1 :: !HasPrompt(chunks[k])
  }

  lemma PrependChunk(d: string, chunks: seq<string>)
    requires !HasPrompt(d) && CleanBeforeLast(chunks)
    ensures CleanBeforeLast([d] + chunks)
    ensures EndsOnPrompt([d] + chunks) <==> EndsOnPrompt(chunks)
  {
    assert forall k | 1 <= k < |chunks| + 1 :: ([d] + chunks)[k] == chunks[k - 1];
  }

  /** The chunks found by the first `n` polls of `q`, in order. */
  function Received(q: seq<Option<string>>, n: nat): seq<string>
    decreases n
  {
    if n == 0 || q == [] then []
    else (if q[0].Some? then [q[0].value] else []) + Received(q[1..], n - 1)
  }

  /** A reading loop loses nothing: its chunks are everything its polls found. */
  lemma {:induction false} ReadKeepsEverything(q: seq<Option<string>>, budget: nat)
    ensures Read(q, budget).chunks == Received(q, Read(q, budget).polls)
    decreases budget
  {
    if budget > 0 {
      ReadKeepsEverything(After(q, 1), budget - 1);
      if q != [] {
        assert After(q, 1) == q[1..];
      }
    }
  }

  /** A shell that never answers never shows a prompt: the whole budget is spent and nothing is received. */
  lemma {:induction false} SilentShell(q: seq<Option<string>>, budget: nat)
    requires forall k | 0 <= k < |q| :: q[k].None?
    ensures Read(q, budget) == Reading([], budget, false)
    decreases budget
  {
    if budget > 0 {
      SilentShell(After(q, 1), budget - 1);
    }
  }

  /**
   * One pass of a reading loop that has kept `done` over `polls` passes:
   * a chunk holding a prompt ends it, anything else leaves the rest of the
   * loop to the remaining budget.
   */
  lemma ReadPoll(q: seq<Option<string>>, budget: nat, done: seq<string>, polls: nat)
    requires budget > 0
    ensures var rd, rest := Read(q, budget), Read(After(q, 1), budget - 1);
      var d := if q == [] then None else q[0];
      if d.Some? && HasPrompt(d.value) then rd == Reading([d.value], 1, true)
      else (Reading(done + rd.chunks, polls + rd.polls, rd.prompt)
        == Reading((if d.Some? then done + [d.value] else done) + rest.chunks, polls + 1 + rest.polls, rest.prompt))
  {
    var rd, rest := Read(q, budget), Read(After(q, 1), budget - 1);
    if q != [] && q[0].Some? && !HasPrompt(q[0].value) {
      assert rd.chunks == [q[0].value] + rest.chunks;
      assert done + ([q[0].value] + rest.chunks) == (done + [q[0].value]) + rest.chunks;
    }
  }

  /** A reading loop over `q0` that has kept `done` in its first `polls` passes, told by what its remaining passes do. */
  predicate ReadSoFar(q0: seq<Option<string>>, budget: nat, done: seq<string>, polls: nat) {
    && polls <= budget
    && var rest := Read(After(q0, polls), budget - polls);
      Read(q0, budget) == Reading(done + rest.chunks, polls + rest.polls, rest.prompt)
  }

  /** The next pass of such a loop: the poll at `polls` either ends it on a prompt or is kept. */
  lemma ReadStep(q0: seq<Option<string>>, budget: nat, done: seq<string>, polls: nat)
    requires polls < budget && ReadSoFar(q0, budget, done, polls)
    ensures var q := After(q0, polls);
      var d := if q == [] then None else q[0];
      if d.Some? && HasPrompt(d.value) then Read(q0, budget) == Reading(done + [d.value], polls + 1, true)
      else ReadSoFar(q0, budget, if d.Some? then done + [d.value] else done, polls + 1)
  {
    var q := After(q0, polls);
    var d := if q == [] then None else q[0];
    ReadPoll(q, budget - polls, done, polls);
    AfterAfter(q0, polls, 1);
    var rest := Read(After(q0, polls + 1), budget - (polls + 1));
    assert Read(After(q, 1), budget - polls - 1) == rest;
    if !(d.Some? && HasPrompt(d.value)) {
      var kept := if d.Some? then done + [d.value] else done;
      assert Read(q0, budget) == Reading(kept + rest.chunks, polls + 1 + rest.polls, rest.prompt);
    }
  }

  /** What `_read_until_prompt` returns: the chunks joined, carriage returns deleted. */
  function Output(r: Reading): string {
    Joined(r.chunks)
  }

  function Joined(chunks: seq<string>): string {
    Remove(Concat(chunks), '\r')
  }

  /** The outputs of the three reads of `get_stats`, and the polls left after them. */
  datatype Exchange = Exchange(cpuOut: string, memOut: string, upOut: string, rest: seq<Option<string>>)

  function StatsExchange(q: seq<Option<string>>): Exchange {
    var r1 := Read(q, CpuPolls);
    var q1 := After(q, r1.polls);
    var r2 := Read(q1, MemoryPolls);
    var q2 := After(q1, r2.polls);
    var r3 := Read(q2, UptimePolls);
    Exchange(Output(r1), Output(r2), Output(r3), After(q2, r3.polls))
  }

  /** The interactive shell channel. */
  class Channel {
    var incoming: seq<Option<string>>
    var sent: seq<string>
    var open: bool

    constructor (script: seq<Option<string>>)
      ensures incoming == script && sent == [] && open
    {
      incoming := script;
      sent := [];
      open := true;
    }

    method Send(data: string)
      modifies this
      ensures sent == old(sent) + [data]
      ensures incoming == old(incoming) && open == old(open)
    {
      sent := sent + [data];
    }

    /** `recv_ready()` and, when it holds, `recv(4096)`; an exhausted script finds nothing. */
    method Poll() returns (r: Option<string>)
      modifies this
      ensures r == if old(incoming) == [] then None else old(incoming)[0]
      ensures incoming == After(old(incoming), 1)
      ensures sent == old(sent) && open == old(open)
    {
      if incoming == [] {
        r := None;
      } else {
        r := incoming[0];
        incoming := incoming[1..];
      }
    }

    method Close()
      modifies this
      ensures !open
      ensures incoming == old(incoming) && sent == old(sent)
    {
      open := false;
    }
  }

  /** The statistics `get_stats` returns. */
  datatype Stats = Stats(cpu: nat, memory: real, uptime: string)

  /**
   * The dictionary `get_stats` builds from the three outputs, the entries
   * evaluated in order, so that the first parse failure is the one reported.
   */
  function StatsOf(cpuOut: string, memOut: string, upOut: string): (r: Result<Stats>)
    ensures r.Ok? <==> ParseCpu(cpuOut).Ok? && ParseMemory(memOut).Ok?
    ensures r.Ok? ==> r.value == Stats(ParseCpu(cpuOut).value, ParseMemory(memOut).value, ParseUptime(upOut))
    ensures ParseCpu(cpuOut).Err? ==> r == Err("Failed to get stats: " + ParseCpu(cpuOut).message)
    ensures ParseCpu(cpuOut).Ok? && ParseMemory(memOut).Err? ==> r == Err("Failed to get stats: " + ParseMemory(memOut).message)
  {
    match (ParseCpu(cpuOut), ParseMemory(memOut))
    case (Err(m), _) => Err("Failed to get stats: " + m)
    case (Ok(_), Err(m)) => Err("Failed to get stats: " + m)
    case (Ok(cpu), Ok(memory)) => Ok(Stats(cpu, memory, ParseUptime(upOut)))
  }

  /**
   * The polls left once `connect` has succeeded, or its error: the failures of
   * `ssh.connect`, the prompt wait, then the "terminal length 0" exchange.
   */
  function Connection(host: string, link: LinkOutcome): (r: Result<seq<Option<string>>>)
    ensures r.Ok? <==> link.Reachable? && Read(link.script, PromptPolls).prompt
    ensures link.DnsFailure? ==> r == Err("DNS resolution failed for '" + host + "'")
    ensures link.AuthFailure? ==> r == Err("Authentication failed")
    ensures link.Failure? ==> r == Err("Connection failed: " + link.message)
    ensures link.Reachable? && !Read(link.script, PromptPolls).prompt ==>
              r == Err("Connection failed: " + PromptMissing)
  {
    match link
    case DnsFailure => Err("DNS resolution failed for '" + host + "'")
    case AuthFailure => Err("Authentication failed")
    case Failure(m) => Err("Connection failed: " + m)
    case Reachable(q) =>
      var w := Read(q, PromptPolls);
      if !w.prompt then Err("Connection failed: " + PromptMissing)
      else
        var q1 := After(q, w.polls);
        Ok(After(q1, Read(q1, TerminalLengthPolls).polls))
  }

  /** `SSHRouterMonitor`. */
  class RouterMonitor {
    const host: string
    const username: string
    const password: string
    /** What the network does when this monitor connects. */
    const link: LinkOutcome
    /** `self.ssh` has been created and not closed. */
    var clientOpen: bool
    var channel: Channel?
    var connected: bool

    predicate Valid()
      reads this
    {
      connected ==> channel != null
    }

    constructor (host: string, username: string, password: string, link: LinkOutcome)
      ensures this.host == host && this.username == username && this.password == password && this.link == link
      ensures !clientOpen && channel == null && !connected
      ensures Valid()
    {
      this.host := host;
      this.username := username;
      this.password := password;
      this.link := link;
      clientOpen := false;
      channel := null;
      connected := false;
    }

    /** `_wait_for_prompt`: the prompt may be spread over the chunks received so far. */
    method WaitForPrompt(budget: nat) returns (r: Result<()>)
      requires channel != null
      modifies channel
      ensures var rd := Read(old(channel.incoming), budget);
        && (r.Ok? <==> rd.prompt)
        && (r.Err? ==> r.message == PromptMissing)
        && channel.incoming == After(old(channel.incoming), rd.polls)
      ensures channel.sent == old(channel.sent) && channel.open == old(channel.open)
    {
      ghost var q0 := channel.incoming;
      ghost var done: seq<string> := [];
      var output := "";
      var polls := 0;
      while polls < budget
        invariant channel.incoming == After(q0, polls)
        invariant channel.sent == old(channel.sent) && channel.open == old(channel.open)
        invariant !HasPrompt(output)
        invariant ReadSoFar(q0, budget, done, polls)
        decreases budget - polls
      {
        ReadStep(q0, budget, done, polls);
        var data := channel.Poll();
        polls := polls + 1;
        if data.Some? {
          done := done + [data.value];
          output := output + data.value;
          if HasPrompt(output) {
            assert HasPrompt(data.value);
            return Ok(());
          }
        }
      }
      return Err(PromptMissing);
    }

    /** `_read_until_prompt`: never fails; stops at the first chunk holding a prompt character. */
    method ReadUntilPrompt(budget: nat) returns (text: string)
      requires channel != null
      modifies channel
      ensures var rd := Read(old(channel.incoming), budget);
        text == Output(rd) && channel.incoming == After(old(channel.incoming), rd.polls)
      ensures channel.sent == old(channel.sent) && channel.open == old(channel.open)
    {
      ghost var q0 := channel.incoming;
      var output: seq<string> := [];
      var polls := 0;
      while polls < budget
        invariant channel.incoming == After(q0, polls)
        invariant channel.sent == old(channel.sent) && channel.open == old(channel.open)
        invariant ReadSoFar(q0, budget, output, polls)
        decreases budget - polls
      {
        ReadStep(q0, budget, output, polls);
        var data := channel.Poll();
        polls := polls + 1;
        if data.Some? {
          output := output + [data.value];
          if HasPrompt(data.value) {
            return Joined(output);
          }
        }
      }
      assert output + [] == output;
      return Joined(output);
    }

    /** `_exec_command`: send the command, then read its output. */
    method ExecCommand(command: string, budget: nat) returns (text: string)
      requires channel != null
      modifies channel
      ensures var rd := Read(old(channel.incoming), budget);
        text == Output(rd) && channel.incoming == After(old(channel.incoming), rd.polls)
      ensures channel.sent == old(channel.sent) + [command] && channel.open == old(channel.open)
    {
      channel.Send(command);
      text := ReadUntilPrompt(budget);
    }

    /**
     * `connect`: the session is marked connected only once the prompt was seen
     * and the pager switched off.
     */
    method Connect() returns (r: Result<()>)
      modifies this
      ensures var c := Connection(host, link);
        && (r.Ok? <==> c.Ok?)
        && (r.Err? ==> r.message == c.message)
        && (c.Ok? ==> channel != null && fresh(channel) && channel.incoming == c.value
                      && channel.sent == [TerminalLengthCommand] && channel.open)
      ensures clientOpen && connected == (old(connected) || r.Ok?)
      ensures link.Reachable? ==> channel != null && fresh(channel)
      ensures !link.Reachable? ==> channel == old(channel)
      ensures Valid() || !old(Valid())
    {
      clientOpen := true;
      match link
      case DnsFailure => return Err("DNS resolution failed for '" + host + "'");
      case AuthFailure => return Err("Authentication failed");
      case Failure(m) => return Err("Connection failed: " + m);
      case Reachable(script) =>
        var ch := new Channel(script);
        channel := ch;
        var w := WaitForPrompt(PromptPolls);
        if w.Err? {
          return Err("Connection failed: " + w.message);
        }
        var _ := ExecCommand(TerminalLengthCommand, TerminalLengthPolls);
        connected := true;
        return Ok(());
    }

    /**
     * `get_stats`: refuses to run unconnected; otherwise the three commands
     * are sent and their outputs parsed.
     */
    method GetStats() returns (r: Result<Stats>)
      requires Valid()
      modifies channel
      ensures !connected ==> r == Err("Not connected to router") && (channel != null ==> unchanged(channel))
      ensures connected ==>
        var ex := StatsExchange(old(channel.incoming));
        && r == StatsOf(ex.cpuOut, ex.memOut, ex.upOut)
        && channel.sent == old(channel.sent) + [CpuCommand] + [MemoryCommand] + [UptimeCommand]
        && channel.incoming == ex.rest
        && channel.open == old(channel.open)
    {
      if !connected {
        return Err("Not connected to router");
      }
      ghost var ex := StatsExchange(channel.incoming);
      var cpuOutput := ExecCommand(CpuCommand, CpuPolls);
      var memOutput := ExecCommand(MemoryCommand, MemoryPolls);
      var uptimeOutput := ExecCommand(UptimeCommand, UptimePolls);
      assert ex == Exchange(cpuOutput, memOutput, uptimeOutput, channel.incoming);
      r := StatsOf(cpuOutput, memOutput, uptimeOutput);
    }

    /** `disconnect`: closes what is open; never fails. */
    method Disconnect()
      modifies this, channel
      ensures !connected && !clientOpen && channel == old(channel)
      ensures channel != null ==>
        !channel.open && channel.incoming == old(channel.incoming) && channel.sent == old(channel.sent)
      ensures Valid()
    {
      if channel != null {
        channel.Close();
      }
      clientOpen := false;
      connected := false;
    }
  }

  /** The dictionary `get_router_stats` returns; `error` is absent on success. */
  datatype StatsReport = StatsReport(error: Option<string>, cpu: Option<nat>, memory: Option<real>, uptime: string)

  /** What `get_router_stats` reports for a host whose network behaves as `link`. */
  function Report(host: string, link: LinkOutcome): (rep: StatsReport)
    ensures rep.error.Some? ==> rep.cpu == None && rep.memory == None && rep.uptime == "N/A"
    ensures rep.error.None? <==> rep.cpu.Some?
    ensures rep.error.None? <==> rep.memory.Some?
  {
    match Connection(host, link)
    case Err(m) => StatsReport(Some(m), None, None, "N/A")
    case Ok(q) =>
      var ex := StatsExchange(q);
      match StatsOf(ex.cpuOut, ex.memOut, ex.upOut)
      case Err(m) => StatsReport(Some(m), None, None, "N/A")
      case Ok(s) => StatsReport(None, Some(s.cpu), Some(s.memory), s.uptime)
  }

  /** `get_router_stats`: connect, read the statistics, and disconnect whatever happened. */
  method GetRouterStats(host: string, username: string, password: string, link: LinkOutcome)
    returns (report: StatsReport)
    ensures report == Report(host, link)
  {
    var monitor := new RouterMonitor(host, username, password, link);
    var c := monitor.Connect();
    if c.Err? {
      report := StatsReport(Some(c.message), None, None, "N/A");
    } else {
      var s := monitor.GetStats();
      match s
      case Err(m) => report := StatsReport(Some(m), None, None, "N/A");
      case Ok(st) => report := StatsReport(None, Some(st.cpu), Some(st.memory), st.uptime);
    }
    monitor.Disconnect();
  }

  /** A router whose shell never answers is reported with the prompt error, and no statistics. */
  lemma SilentRouterReport(host: string, script: seq<Option<string>>)
    requires forall k | 0 <= k < |script| :: script[k].None?
    ensures Report(host, Reachable(script)) == StatsReport(Some("Connection failed: " + PromptMissing), None, None, "N/A")
  {
    SilentShell(script, PromptPolls);
  }

  /** The report carries statistics exactly when the connection and both numeric parses succeed. */
  lemma ReportSucceeds(host: string, link: LinkOutcome)
    ensures var rep, c := Report(host, link), Connection(host, link);
      rep.error.None? <==>
        c.Ok? && ParseCpu(StatsExchange(c.value).cpuOut).Ok? && ParseMemory(StatsExchange(c.value).memOut).Ok?
  {
  }
}
