# Network automation back ends, modelled in Dafny

This project models the core of a small network automation application. Its
back ends drive Cisco-style routers over SSH. The modelled parts are:

- the router monitor: connect, wait for a prompt, read CPU, memory and uptime
  statistics, and parse them with fixed search patterns;
- the statistics page that keeps rolling windows of those readings and picks
  error guidance;
- the configuration back ends for BGP, MPLS, OSPF, VRF and IS-IS: each builds
  a command list, sends it through an interactive shell, decides success
  from the replies, and appends an audit entry;
- the splitting of a running configuration into named sections, and the
  filtering of the router inventory.

Files (one module each):

- `wrappers.dfy` holds `Option` and `Result`.
- `text.dfy` holds the Python string operations used: `splitlines`, `strip`,
  `split()[0]`, `in`, `lower`, `join`.
- `session.dfy` is shared by the configuration back ends. It holds the router
  record, a `Shell` class standing for a paramiko channel, an append-only
  `Log` class standing for a log collection, and the three reading patterns:
  - waiting for the first prompt;
  - sending commands until a reply is rejected;
  - draining ready output.

  It also holds the parser of "show ip interface brief".
- `router_stats_parse.dfy` and `router_stats.dfy` model backend/Router_stats.py.
  `uptime_format.dfy` proves how the uptime normalisation treats whole
  texts.
- `config_sections.dfy` models backend/config.py.
- `bgp.dfy`, `mpls.dfy`, `ospf.dfy`, `vrf.dfy` and `isis.dfy` model the back
  end of the same name.
- `stats_page.dfy` models the data side of frontend/stats_page.py.

The network is always a parameter.

- A configuration session is given as a `Link`. Either the connection fails
  with a message, or a shell opens. An open shell shows some chunks of text
  first and answers every write through a function of everything written so
  far.
- The monitor's channel is given as a script of polls, one per pass of a
  reading loop. A deadline of `t` seconds becomes a budget of `10·t` polls,
  because the loop sleeps 0.1 s per pass.
- The database is given as parameters: the router lookup is a
  `Result<Router>`, and each log collection is a `Log` whose entries grow
  by one document per `insert_one`.

Each stateful operation is a method proved against a pure function of its
inputs. For example, `Bgp.ConfigureBgp` returns exactly `Bgp.Run(...)` and
appends exactly `Bgp.Entry(...)`. The properties the code promises are then
lemmas about those functions.

Where the description of the system and the code differ, the model follows
the code:

- `get_stats` fails as a whole when either numeric parse fails.
- The uptime keeps its inner spaces.
- The route-reflector lines are spliced in after the remote-as line, at
  index 3.
- No "Global Configuration" key is stored when nothing precedes the first
  header.
- The MPLS functions always return an empty `output`.

## Model

| member | source | states |
|---|---|---|
| RouterStatsParse.Search | backend/Router_stats.py:88 | `re.search`: a match has as many groups as the pattern has, and the groups of a numeric pattern are numerals. |
| RouterStatsParse.SearchIsLeftmost | backend/Router_stats.py:88 | The result of `re.search` is the leftmost position where the pattern matches, with that match's groups. `None` only when no position matches. |
| RouterStatsParse.SearchFromIsLeftmost | backend/Router_stats.py:88 | The search returns the first matching position in range. `None` means that no position in range matches. |
| RouterStatsParse.FirstOf | backend/Router_stats.py:87-94 | The result is the first pattern in list order that occurs anywhere, with its groups. `None` means that no pattern occurs. |
| RouterStatsParse.DecidesIsUnique | backend/Router_stats.py:87-89 | At most one pattern is the first to occur. |
| RouterStatsParse.ParseCpu | backend/Router_stats.py:78-94 | The result is the number captured by the first CPU pattern that occurs. If none occurs, it is the error "CPU data not found in output". |
| RouterStatsParse.MemoryFigure | backend/Router_stats.py:107-113 | A zero total gives the error "Invalid memory values". Otherwise the result is used/total·100. |
| RouterStatsParse.PercentRange | backend/Router_stats.py:111 | The memory percentage is never negative. It is at most 100 exactly when used ≤ total. |
| RouterStatsParse.ParseMemory | backend/Router_stats.py:96-114 | The first memory pattern that occurs decides the result. If none occurs, it is the error "Memory data not found in output". |
| RouterStatsParse.NormalizeUptime | backend/Router_stats.py:131-142 | The normalised uptime holds no comma and has no outer whitespace. What it makes of whole texts is stated by `UptimeFormat.UptimeThreeUnits`. |
| RouterStatsParse.FormatUptime | backend/Router_stats.py:131-142 | The loop over the five unit substitutions computes exactly `NormalizeUptime`. |
| RouterStatsParse.AbbreviatesCount | backend/Router_stats.py:134-141 | A count of any number of digits followed by " unit" or " units" becomes the count and the unit letter. Substitution resumes right after the phrase. |
| RouterStatsParse.AbbreviateKeepsCount | backend/Router_stats.py:134-141 | A whole digit run not followed by a space and the unit is copied unchanged. Substitution resumes after it. |
| RouterStatsParse.AbbreviateKeepsPrefix | backend/Router_stats.py:140-141 | A prefix holding no count-and-unit phrase, ending in neither a digit nor a space, is copied unchanged ahead of the substituted rest. |
| RouterStatsParse.UnitAt | backend/Router_stats.py:134-138 | Where a pattern `(\d+) unit s?` matches at the start: the count ends before the space, and the match ends after the optional 's', within the text. |
| RouterStatsParse.Abbreviate | backend/Router_stats.py:140-141 | One `re.sub`, scanning left to right. What it does is stated by `AbbreviatesCount`, `AbbreviateKeepsCount`, `AbbreviateSkips` and `AbbreviateKeepsPrefix`. |
| RouterStatsParse.ApplyRules | backend/Router_stats.py:140-141 | The five substitutions, applied in list order. What they do together is stated by `UptimeFormat.RulesThree`. |
| UptimeFormat.UptimeThreeUnits | backend/Router_stats.py:131-142 | For any counts a, b and c, "a year(s), b week(s), c day(s)" normalises to "ay bw cd". For example, "3 years, 2 weeks, 1 day" gives "3y 2w 1d". |
| UptimeFormat.RulesThree | backend/Router_stats.py:133-141 | The five substitutions turn the three phrases into count-letter pairs, keep the commas, and change nothing else. |
| UptimeFormat.FinishThree | backend/Router_stats.py:142 | Removing the commas and stripping leaves the three pairs separated by single spaces. |
| UptimeFormat.YearStep | backend/Router_stats.py:134 | The year substitution shortens the year count only. |
| UptimeFormat.WeekStep | backend/Router_stats.py:135 | The week substitution shortens the week count only. |
| UptimeFormat.DayStep | backend/Router_stats.py:136 | The day substitution shortens the day count only. |
| UptimeFormat.LaterStep | backend/Router_stats.py:137-138 | The hour and minute substitutions leave shortened counts as they are. |
| UptimeFormat.AbbreviateSplit | backend/Router_stats.py:140-141 | A substitution works separately on the text up to a comma and on the text after it. |
| UptimeFormat.OwnUnit | backend/Router_stats.py:134-138 | A phrase of the rule's own unit, followed by a comma or nothing, becomes the count and the unit letter. |
| UptimeFormat.OtherUnit | backend/Router_stats.py:134-138 | A phrase of another unit is left as it is. |
| UptimeFormat.DoneUnit | backend/Router_stats.py:134-138 | A count already followed by a unit letter is left as it is. |
| UptimeFormat.RemoveJoined | backend/Router_stats.py:142 | Removing the commas works on each space-separated part separately. |
| RouterStatsParse.AbbreviateSkips | backend/Router_stats.py:134-141 | A character that is not a digit cannot start a count-and-unit phrase: it is copied unchanged, and substitution resumes after it. |
| RouterStatsParse.AbbreviateNoPhrase | backend/Router_stats.py:140-141 | A text with no "digit, space, unit initial" sequence is left as it is. |
| RouterStatsParse.FiveSecondsAt | backend/Router_stats.py:81 | The first CPU pattern, tried at one position. A match captures one numeral. |
| RouterStatsParse.CpuTotalAt | backend/Router_stats.py:82 | The second CPU pattern, tried at one position. A match captures one numeral. |
| RouterStatsParse.ProcessorLoadAt | backend/Router_stats.py:83 | The third CPU pattern, tried at one position. A match captures one numeral. |
| RouterStatsParse.LoadMinutesAt | backend/Router_stats.py:84 | The fourth CPU pattern, tried at one position. A match captures one numeral. |
| RouterStatsParse.ProcessorRowAt | backend/Router_stats.py:99 | The IOS memory pattern, tried at one position. A match captures three numerals. |
| RouterStatsParse.UptimeIsAt | backend/Router_stats.py:119 | The first uptime pattern, tried at one position. A match captures one group. |
| RouterStatsParse.LabelledRestAt | backend/Router_stats.py:120-122 | The other three uptime patterns, tried at one position. A match captures one group. |
| RouterStatsParse.ParseUptime | backend/Router_stats.py:116-129 | The result is the normalised group of the first uptime pattern that occurs, else "N/A". |
| RouterStats.Read | backend/Router_stats.py:65-76 | A reading loop uses at most its poll budget and keeps at most one chunk per poll. If it sees no prompt, it uses the whole budget. |
| RouterStats.ReadStopsAtPrompt | backend/Router_stats.py:69-74 | A read that finds a prompt stops at the first chunk holding '#' or '>'. No earlier chunk holds one. |
| RouterStats.ReadKeepsEverything | backend/Router_stats.py:69-76 | The chunks kept are every chunk received during the polls used, in order. |
| RouterStats.SilentShell | backend/Router_stats.py:45-55 | A channel that never has output ready exhausts the budget with nothing read and no prompt. |
| RouterStats.Channel.Send | backend/Router_stats.py:60 | `send` records the data and changes nothing else. |
| RouterStats.Channel.Poll | backend/Router_stats.py:70-71 | One poll takes the next scripted event: a chunk, or nothing ready. |
| RouterStats.Channel.Close | backend/Router_stats.py:165-166 | `close` closes the channel and keeps its history. |
| RouterStats.StatsOf | backend/Router_stats.py:149-160 | The statistics are a success exactly when both numeric parses succeed. Otherwise the first parse error is prefixed with "Failed to get stats: ". |
| RouterStats.Connection | backend/Router_stats.py:20-43 | `connect` succeeds exactly when the host is reachable and a prompt is seen within 100 polls. The DNS, authentication, generic and missing-prompt failures each get their own message. |
| RouterStats.RouterMonitor.constructor | backend/Router_stats.py:12-18 | A new monitor stores its host and credentials, with no client, no channel, and not connected. |
| RouterStats.RouterMonitor.WaitForPrompt | backend/Router_stats.py:45-55 | Succeeds exactly when `Read` sees a prompt within the budget, else fails with "Prompt not detected - check credentials". It consumes exactly the polls used. |
| RouterStats.RouterMonitor.ReadUntilPrompt | backend/Router_stats.py:65-76 | Returns the chunks read, joined, with carriage returns removed. It consumes exactly the polls `Read` uses. |
| RouterStats.RouterMonitor.ExecCommand | backend/Router_stats.py:57-63 | Writes the command once, then returns what `ReadUntilPrompt` reads. |
| RouterStats.RouterMonitor.Connect | backend/Router_stats.py:20-43 | The result and the channel left behind are those of `Connection`. "terminal length 0" is the only write. The monitor is connected only on success. |
| RouterStats.RouterMonitor.GetStats | backend/Router_stats.py:144-160 | Refuses with "Not connected to router" and touches nothing when unconnected. Otherwise it sends the three commands in order and returns `StatsOf` of their outputs. |
| RouterStats.RouterMonitor.Disconnect | backend/Router_stats.py:162-171 | Closes the channel if any, and leaves the monitor disconnected. |
| RouterStats.StatsExchange | backend/Router_stats.py:150-152 | The outputs of the three reads of `get_stats`, in order, each starting where the previous one stopped. `GetStats` returns `StatsOf` of them. |
| RouterStats.Report | backend/Router_stats.py:173-184 | A report with an error has no cpu, no memory and uptime "N/A". Cpu and memory are present exactly when there is no error. |
| RouterStats.GetRouterStats | backend/Router_stats.py:173-184 | Connect, read and disconnect come to exactly `Report(host, link)`. |
| RouterStats.SilentRouterReport | backend/Router_stats.py:173-180 | A router that never answers is reported with "Connection failed: Prompt not detected - check credentials" and no statistics. |
| RouterStats.ReportSucceeds | backend/Router_stats.py:173-184 | The report carries statistics exactly when the connection and both numeric parses succeed. |
| ConfigSections.Lookup | backend/config.py:127 | Dictionary lookup: the result is absent exactly when the key is absent, and is otherwise the stored value. |
| ConfigSections.Put | backend/config.py:127 | Assignment keeps the key order, appends a new key at the end, and keeps keys unique. |
| ConfigSections.PutLookup | backend/config.py:127 | After an assignment, the assigned key reads the new value and every other key reads as before. |
| ConfigSections.IsHeader | backend/config.py:115-118 | The section pattern: one of the ten keywords in any case, whitespace, then more text. Its use is stated by `GroupingNames` and `BodiesHoldNoHeaders`. |
| ConfigSections.Store | backend/config.py:126-134 | The dict built from the groups. What it holds is stated by `StoreHas`, `StoreKeeps` and `StoreKeysHaveBodies`. |
| ConfigSections.ConfigSections | backend/config.py:109-142 | The sections returned. What they hold is stated by `SplitConfigSections`, `GlobalPresent`, `SystemInfoPresent` and `EmptyConfig`. |
| ConfigSections.Cleaned | backend/config.py:120-123 | Only stripped, non-empty lines are kept. |
| ConfigSections.Grouping | backend/config.py:120-131 | The lines are split into groups, the first one named "Global Configuration". |
| ConfigSections.GroupingNames | backend/config.py:125-128 | Every group after the first is named by a header line. |
| ConfigSections.GroupingBodies | backend/config.py:130-131 | Every body line is a non-header line of the input. |
| ConfigSections.GroupingPartitions | backend/config.py:120-131 | Headers and bodies together give back the kept lines, in order. |
| ConfigSections.InfoLines | backend/config.py:137-140 | The "System Info" lines are exactly the original lines that mention "version" or "hostname" in any case. Every line kept is one, every such line is kept, and no more lines come out than went in. |
| ConfigSections.InfoLinesAppend | backend/config.py:137-140 | The filter keeps order and repetitions: a line added at the end is kept, at the end, exactly when it mentions "version" or "hostname". |
| ConfigSections.Informative | backend/config.py:139 | The test of a "System Info" line. Its use is stated by `InfoLines`. |
| ConfigSections.SplitConfigSections | backend/config.py:109-142 | The line-by-line loop returns exactly `ConfigSections(config)`. |
| ConfigSections.GlobalIsNoHeader | backend/config.py:112-118 | The name "Global Configuration" is not itself a header line. |
| ConfigSections.SystemInfoIsNoHeader | backend/config.py:115-118 | The name "System Info" is not a header line, so no header group is ever stored under it. |
| ConfigSections.GlobalPresent | backend/config.py:126-134 | "Global Configuration" is a key exactly when a kept line precedes the first header. |
| ConfigSections.GroupingFirst | backend/config.py:120-131 | The global group is empty exactly when there are no lines or the first one is a header. |
| ConfigSections.StoreHas | backend/config.py:126-134 | A name used by one group only is a key exactly when that group's body is non-empty. |
| ConfigSections.StoreKeeps | backend/config.py:126-134 | Every group with a non-empty body is stored. |
| ConfigSections.StoreKeysHaveBodies | backend/config.py:126-134 | Every key stored names a group with a non-empty body. |
| ConfigSections.SystemInfoPresent | backend/config.py:136-140 | "System Info" is a key exactly when the text mentions "version" in any case. It then holds the matching lines joined by newlines. |
| ConfigSections.EmptyConfig | backend/config.py:109-142 | An empty configuration has no sections. |
| ConfigSections.BodiesHoldNoHeaders | backend/config.py:120-131 | Section bodies hold only stripped, non-empty, non-header lines of the input. |
| ConfigSections.RouterList | backend/config.py:13-14 | Only routers with name, ip, username and password are listed, and never more than given. |
| ConfigSections.RouterListMembers | backend/config.py:13-14 | A router is listed exactly when it was given and is complete. |
| ConfigSections.RouterListAppend | backend/config.py:13-14 | The filter keeps order: filtering a concatenation concatenates the filtered parts. |
| Session.Shell.constructor | backend/implement_bgp.py:54 | A fresh shell is open, has nothing written, and holds its opening output unread. |
| Session.Shell.Send | backend/implement_bgp.py:79 | `send` records the data and queues the device's reply. |
| Session.Shell.Recv | backend/implement_bgp.py:81 | A large `recv` returns everything unread, in order. |
| Session.Shell.RecvChunk | backend/implement_bgp.py:59 | A small `recv` returns the next chunk, or times out when none is queued. |
| Session.Shell.Close | backend/implement_bgp.py:98 | `close` closes the shell and keeps its history. |
| Session.Log.constructor | backend/implement_bgp.py:22 | A log collection starts empty. |
| Session.Log.Append | backend/implement_bgp.py:22 | `insert_one` appends exactly one document. |
| Session.PromptAfter | backend/implement_bgp.py:58-59 | The initial loop stops at the first chunk after which the text read ends with '#' or '>'. `None` means that no prefix ever does. |
| Session.Opening | backend/implement_bgp.py:57-59 | The first prompt is found exactly when `PromptAfter` finds it. The text read plus the chunks left is the whole opening output. Otherwise the result is the timeout. |
| Session.WaitForPrompt | backend/vrf_config.py:105-107 | The loop returns exactly what `Opening` describes, and leaves the rest unread. |
| Session.Replies | backend/implement_bgp.py:78-81 | There is one reply per command: the device's answer to that command line given everything written before. The unread opening output is added to the first reply. |
| Session.Responses | backend/ospf.py:52-59 | There is one queued response per write, each the answer given everything written before. |
| Session.Terminated | backend/implement_bgp.py:79 | Each command is written followed by a newline. |
| Session.FirstRejected | backend/implement_bgp.py:78-85 | The result is the first reply holding a marker. `None` means that no reply holds one. |
| Session.SendLoop | backend/implement_bgp.py:78-85 | Commands are written one at a time, each followed by reading its reply, up to the first rejected reply and no further. |
| Session.SendUntilRejected | backend/vrf_config.py:110-116 | The loop writes and reads exactly what `SendLoop` describes. |
| Session.Drain | backend/isis.py:68-74 | Draining returns all ready output, in order, and leaves none. |
| Session.FirstTokenIsWord | backend/implement_mpls.py:33-34 | The first word of a non-blank line is non-empty and holds no whitespace. |
| Session.FirstWordsLength | backend/implement_mpls.py:33-34 | The parser never returns more names than the text has lines. |
| Session.FirstWordsAreWords | backend/implement_mpls.py:33-34 | Every returned name is a non-empty word. |
| Session.FirstWordsMembers | backend/vrf_config.py:51-55 | A name is returned exactly when it is the first word of a non-blank line not starting with "Interface". |
| Session.InterfaceNames | backend/implement_mpls.py:32-34 | The names parsed from "show ip interface brief". What they are is stated by the `FirstWords` lemmas. |
| Session.FirstWordsAppend | backend/implement_mpls.py:33-34 | The parser works line by line: the names for two texts are the names of each, concatenated. |
| Bgp.BaseCommands | backend/implement_bgp.py:61-69 | The seven commands every peering sends. Their use is stated by `ExternalSequence` and `InternalSequence`. |
| Bgp.ReflectorCommands | backend/implement_bgp.py:72-76 | The three route-reflector lines. Their place is stated by `InternalSequence`. |
| Bgp.Internal | backend/implement_bgp.py:71 | An iBGP peering between equal AS numbers. Its use is stated by `BgpCommands`. |
| Bgp.BgpCommands | backend/implement_bgp.py:61-76 | An iBGP peering between equal AS numbers gets 10 commands. Any other gets 7. |
| Bgp.ExternalSequence | backend/implement_bgp.py:61-69 | A non-internal peering sends exactly the seven base commands. |
| Bgp.InternalSequence | backend/implement_bgp.py:71-76 | The three reflector lines sit after the remote-as line and before the address family. Removing them gives back the base list. |
| Bgp.Vpnv4Commands | backend/implement_bgp.py:125-134 | The VPNv4 list has eight commands and ends with "end" and "write memory". |
| Bgp.Entry | backend/implement_bgp.py:11-22 | The log status is "success" exactly when the call succeeded. Otherwise the error is recorded. |
| Bgp.Run | backend/implement_bgp.py:49-91 | One session: connect, wait for the prompt, then `Converse`. What it returns is stated by `RunSucceeds`, `RunWritesAll`, `RunAborts` and `NoPromptNothingSent`. |
| Bgp.Converse | backend/implement_bgp.py:78-90 | The command loop and the save after the prompt. `Exchange` proves the loop computes it. |
| Bgp.RunSucceeds | backend/implement_bgp.py:78-91 | A session succeeds exactly when the shell opened, showed a prompt, and no reply held "% Invalid". |
| Bgp.RunWritesAll | backend/implement_bgp.py:78-89 | A successful session wrote every command, then the save data ("end\nwrite memory\n" for `configure_bgp`). |
| Bgp.RunAborts | backend/implement_bgp.py:78-85 | The first rejected command ends the session. Nothing after it is written. The output holds every reply up to it. The error is "Command failed: " + the command + "\n" + its reply. |
| Bgp.NoPromptNothingSent | backend/implement_bgp.py:57-59 | A shell that never shows a prompt fails with the timeout, and nothing is written. |
| Bgp.Answers | backend/implement_bgp.py:78-81 | There is one reply per command. |
| Bgp.ConfigureBgp | backend/implement_bgp.py:34-100 | Returns `Run` on the BGP list with the save data, logs one `Entry`, and closes the shell. |
| Bgp.ConfigureVpnv4 | backend/implement_bgp.py:102-155 | Returns `Run` on the VPNv4 list with no save data, logs one `Entry`, and closes the shell. |
| Bgp.Apply | backend/implement_bgp.py:53-98 | The shared session body returns `Run`'s response. It closes every shell it opened, after writing exactly `Run`'s data. |
| Bgp.Exchange | backend/implement_bgp.py:78-90 | After the prompt, the loop and the save come to exactly `Converse`. |
| Mpls.Block | backend/implement_mpls.py:70 | The three lines for one interface. Their order is stated by `Blocks`. |
| Mpls.Blocks | backend/implement_mpls.py:70 | There is one three-line block per interface, in order. |
| Mpls.ConfigureCommands | backend/implement_mpls.py:67-73 | The list is global `mpls ip`, one block per interface in order, then "end" and "write memory". |
| Mpls.DeleteCommands | backend/implement_mpls.py:119-124 | The list is one `no mpls ip` block per interface in order, then "end" and "write memory". |
| Mpls.DeleteKeepsGlobalMpls | backend/implement_mpls.py:119-124 | Deletion never sends the global "no mpls ip". |
| Mpls.Run | backend/implement_mpls.py:74-99 | The returned output is always empty. The log status is "success", "failure" (a rejected command) or "error" (no connection). |
| Mpls.Entry | backend/implement_mpls.py:42-52 | The log entry carries an error exactly when the call failed. |
| Mpls.RunSucceeds | backend/implement_mpls.py:76-91 | A call succeeds exactly when the shell opened and no reply held "% Invalid". |
| Mpls.RunWritesAll | backend/implement_mpls.py:76-86 | A successful call wrote every command and nothing else. |
| Mpls.RunAborts | backend/implement_mpls.py:76-86 | The first rejected command ends the loop. It is named in "Command failed: …". Nothing after it is written. |
| Mpls.ConfigureMpls | backend/implement_mpls.py:54-104 | Returns `Run` on the configure list, logs one entry, and closes the shell. |
| Mpls.DeleteMpls | backend/implement_mpls.py:106-155 | Returns `Run` on the delete list, logs one entry, and closes the shell. |
| Mpls.Apply | backend/implement_mpls.py:56-104 | The shared body matches `Run` and `Entry`, and closes every shell it opened. |
| Mpls.ShowInterfaces | backend/implement_mpls.py:20-40 | A failure is wrapped as "SSH Error: …". Success gives at most one name per line. |
| Mpls.ShowInterfacesNames | backend/implement_mpls.py:33-34 | A name is listed exactly when it is the first word of a kept line. |
| Ospf.DeleteProcessCommands | backend/ospf.py:126-131 | The list of `delete_ospf_config`. Its relation to the apply list is stated by `DeleteMirrorsApply`. |
| Ospf.DeleteNetworkCommands | backend/ospf.py:160-166 | The list of `delete_ospf_network`. Its relation to the apply list is stated by `DeleteMirrorsApply`. |
| Ospf.ApplyCommands | backend/ospf.py:93-95 | The list is "configure terminal", the process line, one network statement per entry in order, then "end" and "write memory". |
| Ospf.ApplyExample | backend/ospf.py:93-95 | One network in area 0 of process 1 gives exactly five commands. |
| Ospf.DeleteMirrorsApply | backend/ospf.py:126-166 | Deleting a network negates its statement in the single-network apply list. Deleting the process negates the process line. |
| Ospf.Preamble | backend/ospf.py:44-49 | The enable lines, sent only when the router has an enable secret. Their use is stated by `WriteAll` and `SecretNeverLogged`. |
| Ospf.Accepted | backend/ospf.py:65 | The success test on the output. Its case-insensitivity is stated by `AnyCaseErrorFails`. |
| Ospf.Execute | backend/ospf.py:25-88 | The result is `True` exactly when the log status is "success". The status is "error" exactly when there is no connection. A returned text is the logged output. |
| Ospf.WritesIgnoreReplies | backend/ospf.py:44-54 | Everything is written before anything is read. What is written does not depend on the router's replies. |
| Ospf.SecretNeverLogged | backend/ospf.py:44-51 | The SSH log lists "enable" and the mask in place of the enable secret. |
| Ospf.LowerContains | backend/ospf.py:65 | Lower-casing keeps every occurrence. |
| Ospf.AnyCaseErrorFails | backend/ospf.py:65 | "error" in any letter case fails the call. |
| Ospf.ExecuteSshCommands | backend/ospf.py:25-88 | Returns `Execute`'s result, logs its entry once, and closes the shell. |
| Ospf.WriteAll | backend/ospf.py:44-54 | The writes are the enable preamble, then every command. Each reply is queued. |
| Ospf.Recorded | backend/ospf.py:98-120 | The config log status is "error" exactly when the lookup failed, and "success" exactly when the call returned `True`. |
| Ospf.Outcome | backend/ospf.py:110-121 | A lookup failure returns its message. |
| Ospf.Configure | backend/ospf.py:90-121 | The shared body returns `Outcome`. It appends exactly one config entry, plus an SSH entry only when the router was found. |
| Ospf.ApplyOspfConfig | backend/ospf.py:90-121 | `Configure` on the apply list. |
| Ospf.DeleteOspfConfig | backend/ospf.py:123-155 | `Configure` on the delete-process list. |
| Ospf.DeleteOspfNetwork | backend/ospf.py:157-196 | Like `Configure`, except that any returned text becomes "Network not found" when the router was found. |
| Vrf.NameMatch | backend/vrf_config.py:86-88 | The VRF name check as matched. What it accepts is stated by `NameMatchMeans`. |
| Vrf.RdMatch | backend/vrf_config.py:141 | The RD check as matched. What it accepts is stated by `RdMatchMeans`. |
| Vrf.NameMatchMeans | backend/vrf_config.py:86-88 | The name check accepts exactly 1 to 32 characters from `[a-zA-Z0-9_-]`, optionally followed by one newline. |
| Vrf.RdMatchMeans | backend/vrf_config.py:141 | The RD check accepts exactly `digits:digits`, optionally followed by one newline. |
| Vrf.RdFromShape | backend/vrf_config.py:141 | The matcher finds the colon of any `digits:digits` text. |
| Vrf.CreateCommands | backend/vrf_config.py:143-157 | The VRF's six lines come first. The three binding lines follow only when an interface is chosen. The list ends with "end". |
| Vrf.RemoveCommands | backend/vrf_config.py:177-182 | The removal list. That it saves twice is stated by `RemoveSavesTwice`. |
| Vrf.Execute | backend/vrf_config.py:90-126 | One `execute_ssh_commands` call. What it returns and writes is stated by `ExecuteReturns` and `ExecuteAborts`. |
| Vrf.Converse | backend/vrf_config.py:109-121 | The command loop and the save after the prompt. `Exchange` proves the loop computes it. |
| Vrf.Answers | backend/vrf_config.py:110-113 | There is one reply per command. |
| Vrf.ExecuteReturns | backend/vrf_config.py:90-121 | A call returns exactly when the prompt was seen and no reply held a marker. It then wrote every command and "write memory", and returns the whole text read. |
| Vrf.ExecuteAborts | backend/vrf_config.py:110-116 | The first rejected reply raises with the command and the reply. Nothing after it, and no save, is written. |
| Vrf.RemoveSavesTwice | backend/vrf_config.py:177-182 | A removal that returns writes "write memory" twice. |
| Vrf.ExecuteSshCommands | backend/vrf_config.py:90-126 | Returns `Execute`'s result and closes the shell. |
| Vrf.Exchange | backend/vrf_config.py:110-121 | After the prompt, the loop and the save come to exactly `Converse`. |
| Vrf.Create | backend/vrf_config.py:136-158 | A bad name is refused before the RD is looked at. A bad RD is refused before connecting. Neither writes anything. |
| Vrf.ResponseOf | backend/vrf_config.py:158-169 | The response succeeds exactly when the session returned, with an empty error. |
| Vrf.Recorded | backend/vrf_config.py:160-168 | The log status is "success" exactly when the session returned. An error is logged exactly when it did not. |
| Vrf.SendVrfConfiguration | backend/vrf_config.py:127-169 | Returns `ResponseOf(Create(...))` and logs one entry. No shell is opened when a check fails. |
| Vrf.RemoveVrfConfiguration | backend/vrf_config.py:171-192 | Returns `ResponseOf(Execute(...))` on the removal list and logs one entry. |
| Vrf.FetchInterfaces | backend/vrf_config.py:35-84 | Returns the parsed names and logs their count. A failure is logged and raised as "Interface fetch failed: …". |
| Isis.SetCommands | backend/isis.py:17-25 | The six commands of `generate_isis_commands`. Their shape is stated by `DeleteMirrorsSet`. |
| Isis.DeleteCommands | backend/isis.py:27-32 | The three commands of `generate_isis_delete_commands`. Their shape is stated by `DeleteMirrorsSet`. |
| Isis.Apply | backend/isis.py:34-107 | One `apply_configuration` call: its verdict, its log entries and what it writes. These are stated by `ApplySucceeds`, `EveryCommandLogged` and `FailureLoggedOnce`. |
| Isis.DeleteMirrorsSet | backend/isis.py:17-32 | The set list has 6 commands and the delete list 3. Deletion is the first, negated second and last set commands. |
| Isis.CommandEntries | backend/isis.py:63-85 | There is one "success" entry per command, in order. |
| Isis.ApplySucceeds | backend/isis.py:34-107 | The call returns `True` exactly when the router was found, the shell opened, and it showed output before the first `recv`. |
| Isis.EveryCommandLogged | backend/isis.py:63-88 | A successful call writes every command and logs one success per command, whatever the router answers. |
| Isis.FailureLoggedOnce | backend/isis.py:89-107 | A failed call writes nothing. It logs one "error" entry against the space-joined commands. |
| Isis.ApplyConfiguration | backend/isis.py:34-107 | Returns `Apply`'s verdict and appends exactly its entries. The shell is closed only on success. |
| Isis.LogEachCommand | backend/isis.py:63-85 | The loop writes each command, drains the reply, and logs it as a success. |
| StatsPage.Rolled | frontend/stats_page.py:155-159 | The newest reading is last. |
| StatsPage.RolledWindow | frontend/stats_page.py:155-159 | A window within bounds stays within 20. Its older readings that remain are kept in order. |
| StatsPage.WindowKeepsLatest | frontend/stats_page.py:155-159 | Starting empty, the window always holds exactly the last 20 readings, or all of them when fewer. |
| StatsPage.WindowSuffix | frontend/stats_page.py:155-159 | The window is the last 20 of what it held followed by what was added. |
| StatsPage.Guidance | frontend/stats_page.py:190-203 | A "DNS resolution" message gets the DNS advice. Otherwise "Connection failed" gets the connection advice, and anything else the default. |
| StatsPage.LacksInitial | frontend/stats_page.py:192-197 | A text lacking a phrase's first letter cannot contain the phrase. |
| StatsPage.DnsFailureGuidance | frontend/stats_page.py:192-196 | A failed name lookup is reported as "DNS resolution failed …" and gets the DNS advice. |
| StatsPage.SilentRouterGuidance | frontend/stats_page.py:197-201 | A router that never shows a prompt gets the connection advice. |
| StatsPage.PromptMissingGuidance | frontend/stats_page.py:197-201 | The missing-prompt error gets the connection advice. |
| StatsPage.AuthMessageGuidance | frontend/stats_page.py:192-203 | "Authentication failed" mentions neither DNS nor a failed connection, so it gets the default advice. |
| StatsPage.AuthFailureGuidance | frontend/stats_page.py:202-203 | Rejected credentials are reported as "Authentication failed" and get the default advice. |
| StatsPage.StatsWindow.constructor | frontend/stats_page.py:25-28 | Both windows start empty, and the uptime starts as "N/A". |
| StatsPage.StatsWindow.UpdateDataset | frontend/stats_page.py:155-159 | Exactly one window rolls. The other and the uptime are untouched. |
| StatsPage.StatsWindow.ProcessStats | frontend/stats_page.py:137-153 | Only present readings within 0..100 are added, never clamped. The uptime changes unless the report says "N/A". |
| StatsPage.StatsWindow.SafeUpdate | frontend/stats_page.py:123-135 | A report with a non-empty error leaves all data untouched and opens the dialog. Any other report is processed. |

## Left out

- Timing is not modelled: the sleeps, the deadlines measured in seconds, and the `recv` buffer sizes. A reply is ready as soon as its command is written, and a large `recv` returns all unread output.
- The initial prompt loop of the VRF back end calls `recv` on a channel with no timeout set, so it would block forever on a silent shell. The model ends that wait with the same timeout error as the BGP back end, whose channel has a 10-second timeout. That error carries paramiko's empty message.
- Transport exceptions in the middle of a session are not modelled. A shell that has opened never raises.
- MongoDB is left out. Router lookups are `Result<Router>` parameters, and each log collection is a `Log` of entries. The router lookup function of backend/ospf.py (`router_connection`) is that parameter.
- Timestamps in log entries are left out. So is the truncation of logged output to 10000 characters in backend/config.py's `log_command`, which the modelled back ends do not call.
- The user IP of backend/isis.py comes from a host-name lookup. It is a parameter here.
- Case folding and digit classes are ASCII only. Python's Unicode `lower()` and `\d` are not modelled.
- The remaining helpers of backend/config.py (`fetch_running_config`, `log_command`, `execute_command`) are not part of this model. They only connect, run one command and log.
- `show_interfaces` and `fetch_interfaces` run "show ip interface brief" through `exec_command`. Its output, or its failure, is given as a parameter.
- CPU figures are whole numbers (`nat`). The source converts them to Python floats, whose formatting is not modelled.
- Memory percentages are exact reals, not floating point.
- Python's `Exception` catch-all in `get_router_stats` ("Unexpected error: …") is not modelled, because nothing in the model can raise outside the monitor's own errors.
- The charts, labels, styles, the 15-second timer and the Qt signal plumbing of frontend/stats_page.py are left out. Only the data it keeps and the dialog text are modelled.
- The context files (the other frontend pages, backend/Connect.py, backend/manage_equipment.py, backend/monitor.py) are not part of this model.
- UptimeFormat.UptimeThreeUnits: the full normalisation is proved for the year, week and day form, for any counts and either plural. Other unit combinations, such as hours and minutes, are covered by the single-phrase lemmas `AbbreviatesCount`, `AbbreviateKeepsCount`, `AbbreviateSkips` and `AbbreviateKeepsPrefix`, not by a whole-text lemma.
- RouterStats.Channel.Poll: chunks are given already decoded. UTF-8 decoding with `'ignore'` is not modelled.
