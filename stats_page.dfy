/**
 * The data kept by `StatsWindow` in frontend/stats_page.py: two rolling
 * windows of at most 20 readings, the last uptime the router reported, the
 * refresh that fills them from `get_router_stats`, and the guidance its
 * error dialog picks. The charts, labels and timer are left out.
 */
module StatsPage {
  import opened Wrappers
  import opened Text
  import opened RouterStats

  /** `max_points`. */
  const MaxPoints: nat := 20
  const NoUptime := "N/A"

  /** `update_dataset` on a list: append, then drop the oldest reading if there are more than `MaxPoints`. */
  function Rolled(data: seq<real>, value: real): (r: seq<real>)
    ensures r != [] && r[|r| - 1] == value
  {
    var appended := data + [value];
    if |appended| > MaxPoints then appended[1..] else appended
  }

  /** A window that was within bounds stays so; it holds the older readings that remain, in order, then the new one. */
  lemma RolledWindow(data: seq<real>, value: real)
    requires |data| <= MaxPoints
    ensures |Rolled(data, value)| == if |data| == MaxPoints then MaxPoints else |data| + 1
    ensures Rolled(data, value) == (if |data| == MaxPoints then data[1..] else data) + [value]
  {
  }

  /** The window after each of `values` was added in turn to `data`. */
  function RollAll(data: seq<real>, values: seq<real>): seq<real>
    decreases |values|
  {
    if values == [] then data else RollAll(Rolled(data, values[0]), values[1..])
  }

  /** Starting empty, the window always holds exactly the last `MaxPoints` readings (or all of them, when fewer). */
  lemma {:induction false} WindowKeepsLatest(values: seq<real>)
    ensures var n := if |values| < MaxPoints then |values| else MaxPoints;
      RollAll([], values) == values[|values| - n..]
  {
    WindowSuffix([], values);
    assert [] + values == values;
  }

  /** The general form: the window is the last readings of what it held followed by what was added. */
  lemma {:induction false} WindowSuffix(data: seq<real>, values: seq<real>)
    requires |data| <= MaxPoints
    ensures var all := data + values;
      var n := if |all| < MaxPoints then |all| else MaxPoints;
      RollAll(data, values) == all[|all| - n..]
    decreases |values|
  {
    var all := data + values;
    if values == [] {
      assert all == data;
    } else {
      var next := Rolled(data, values[0]);
      RolledWindow(data, values[0]);
      WindowSuffix(next, values[1..]);
      var rest := next + values[1..];
      var n := if |all| < MaxPoints then |all| else MaxPoints;
      var m := if |rest| < MaxPoints then |rest| else MaxPoints;
      if |data| == MaxPoints {
        assert rest == all[1..];
      } else {
        assert rest == all;
      }
      assert m == n;
    }
  }

  /** `0 <= value <= 100`: the readings the window accepts. */
  predicate InRange(value: real) {
    0.0 <= value <= 100.0
  }

  datatype Series = Cpu | Memory

  /** The guidance for an error that names a failed name lookup. */
  function DnsAdvice(host: string): string {
    "Hostname resolution failed for '" + host + "':\n"
      + "1. Verify the device name is correct\n"
      + "2. Check DNS/hosts file configuration\n"
      + "3. Try using the IP address instead"
  }

  const ConnectionAdvice := "Connection attempt failed:\n1. Verify device is reachable\n2. Check SSH port (22) accessibility\n3. Validate credentials"
  const DefaultAdvice := "Check network configuration and try again"

  /** `show_error_message`: the first of the two phrases the message holds picks the guidance. */
  function Guidance(host: string, message: string): (g: string)
    ensures Contains(message, "DNS resolution") ==> g == DnsAdvice(host)
    ensures !Contains(message, "DNS resolution") && Contains(message, "Connection failed") ==> g == ConnectionAdvice
    ensures !Contains(message, "DNS resolution") && !Contains(message, "Connection failed") ==> g == DefaultAdvice
  {
    if Contains(message, "DNS resolution") then DnsAdvice(host)
    else if Contains(message, "Connection failed") then ConnectionAdvice
    else DefaultAdvice
  }

  /** The text of the error dialog. */
  function Dialog(host: string, message: string): string {
    message + "\n\n" + Guidance(host, message)
  }

  /** A text without the letter a phrase starts with cannot hold the phrase. */
  lemma LacksInitial(s: string, phrase: string)
    requires phrase != [] && phrase[0] !in s
    ensures !Contains(s, phrase)
  {
  }

  /** A failed name lookup reported by `get_router_stats` gets the DNS guidance. */
  lemma DnsFailureGuidance(host: string)
    ensures Report(host, DnsFailure).error == Some("DNS resolution failed for '" + host + "'")
    ensures Guidance(host, Report(host, DnsFailure).error.value) == DnsAdvice(host)
  {
    var m := "DNS resolution failed for '" + host + "'";
    assert m[..14] == "DNS resolution";
    ContainsAt(m, "DNS resolution", 0);
  }

  /** A router that never shows a prompt gets the connection guidance. */
  lemma SilentRouterGuidance(host: string, script: seq<Option<string>>)
    requires forall k | 0 <= k < |script| :: script[k].None?
    ensures var rep := Report(host, Reachable(script));
      rep.error.Some? && Guidance(host, rep.error.value) == ConnectionAdvice
  {
    var message := "Connection failed: " + PromptMissing;
    assert Report(host, Reachable(script)).error == Some(message) by {
      SilentRouterReport(host, script);
    }
    PromptMissingGuidance(host);
  }

  lemma PromptMissingGuidance(host: string)
    ensures Guidance(host, "Connection failed: " + PromptMissing) == ConnectionAdvice
  {
    var m := "Connection failed: " + PromptMissing;
    assert 'D' !in "Connection failed: " && 'D' !in PromptMissing;
    assert 'D' !in m;
    LacksInitial(m, "DNS resolution");
    assert m[..17] == "Connection failed";
    ContainsAt(m, "Connection failed", 0);
  }

  /** Rejected credentials match neither phrase and get the default guidance. */
  lemma AuthFailureGuidance(host: string)
    ensures Report(host, AuthFailure).error == Some("Authentication failed")
    ensures Guidance(host, Report(host, AuthFailure).error.value) == DefaultAdvice
  {
    assert Connection(host, AuthFailure) == Err("Authentication failed");
    AuthMessageGuidance(host);
  }

  lemma AuthMessageGuidance(host: string)
    ensures Guidance(host, "Authentication failed") == DefaultAdvice
  {
    LacksInitial("Authentication failed", "DNS resolution");
    LacksInitial("Authentication failed", "Connection failed");
  }

  /** The data kept by `StatsWindow`. */
  class StatsWindow {
    const host: string
    const username: string
    const password: string
    var cpuData: seq<real>
    var memoryData: seq<real>
    var lastUptime: string

    /** Neither window ever holds more than `MaxPoints` readings. */
    predicate Valid()
      reads this
    {
      |cpuData| <= MaxPoints && |memoryData| <= MaxPoints
    }

    constructor (host: string, username: string, password: string)
      ensures this.host == host && this.username == username && this.password == password
      ensures cpuData == [] && memoryData == [] && lastUptime == NoUptime
      ensures Valid()
    {
      this.host := host;
      this.username := username;
      this.password := password;
      cpuData := [];
      memoryData := [];
      lastUptime := NoUptime;
    }

    /** `update_dataset` on one of the two lists. */
    method UpdateDataset(series: Series, value: real)
      requires Valid()
      modifies this
      ensures series.Cpu? ==> cpuData == Rolled(old(cpuData), value) && memoryData == old(memoryData)
      ensures series.Memory? ==> memoryData == Rolled(old(memoryData), value) && cpuData == old(cpuData)
      ensures lastUptime == old(lastUptime)
      ensures Valid()
    {
      if series.Cpu? {
        cpuData := cpuData + [value];
        if |cpuData| > MaxPoints {
          cpuData := cpuData[1..];
        }
      } else {
        memoryData := memoryData + [value];
        if |memoryData| > MaxPoints {
          memoryData := memoryData[1..];
        }
      }
    }

    /**
     * `process_stats`: a reading is added only when present and within
     * 0..100 (an out-of-range one is dropped, not clamped); the uptime is
     * kept unless the report says "N/A".
     */
    method ProcessStats(stats: StatsReport)
      requires Valid()
      modifies this
      ensures cpuData == if stats.cpu.Some? && InRange(stats.cpu.value as real) then Rolled(old(cpuData), stats.cpu.value as real) else old(cpuData)
      ensures memoryData == if stats.memory.Some? && InRange(stats.memory.value) then Rolled(old(memoryData), stats.memory.value) else old(memoryData)
      ensures lastUptime == if stats.uptime != NoUptime then stats.uptime else old(lastUptime)
      ensures Valid()
    {
      if stats.cpu.Some? && 0.0 <= stats.cpu.value as real <= 100.0 {
        UpdateDataset(Cpu, stats.cpu.value as real);
      }
      if stats.memory.Some? && 0.0 <= stats.memory.value <= 100.0 {
        UpdateDataset(Memory, stats.memory.value);
      }
      var uptime := stats.uptime;
      if uptime != NoUptime {
        lastUptime := uptime;
      }
    }

    /**
     * `safe_update`, the network given as `link`: a report carrying a
     * non-empty error leaves all the data as it was and opens the error
     * dialog; any other report is processed.
     */
    method SafeUpdate(link: LinkOutcome) returns (dialog: Option<string>)
      requires Valid()
      modifies this
      ensures var rep := Report(host, link);
        if rep.error.Some? && rep.error.value != "" then
          && dialog == Some(Dialog(host, rep.error.value))
          && cpuData == old(cpuData) && memoryData == old(memoryData) && lastUptime == old(lastUptime)
        else
          && dialog == None
          && cpuData == (if rep.cpu.Some? && InRange(rep.cpu.value as real) then Rolled(old(cpuData), rep.cpu.value as real) else old(cpuData))
          && memoryData == (if rep.memory.Some? && InRange(rep.memory.value) then Rolled(old(memoryData), rep.memory.value) else old(memoryData))
          && lastUptime == (if rep.uptime != NoUptime then rep.uptime else old(lastUptime))
      ensures Valid()
    {
      var stats := GetRouterStats(host, username, password, link);
      if stats.error.Some? && stats.error.value != "" {
        dialog := Some(stats.error.value + "\n\n" + Guidance(host, stats.error.value));
      } else {
        ProcessStats(stats);
        dialog := None;
      }
    }
  }
}
